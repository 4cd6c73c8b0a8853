/** What an accepted list of entries means, for any parser evidence: every clause in terms of cells, entries, leaves
    and identities, none through the functions the check computes with. */
module ClosureMeaning {
  import opened Json
  import opened Ordering
  import opened Provenance
  import opened EvidencePlanning
  import opened Tables
  import opened Closure
  import opened Submitted

  // ---------- The parser's side ----------

  /** A cell of the document's own file, in its row, under a header. */
  ghost predicate TrueCell(ev: Evidence, c: ParserCell) {
    && c.rowNumber >= 1 && c.source.row == c.rowNumber
    && (c.source.sourceId, c.source.documentId, c.source.sourceHash) == (ev.sourceId, ev.document.documentId, ev.document.sourceHash)
    && ev.conv.strip(c.source.header) != ""
  }

  ghost predicate TrueCells(ev: Evidence) {
    && 1 <= |ev.cells| <= 30000
    && (forall k :: 0 <= k < |ev.cells| ==> TrueCell(ev, ev.cells[k]))
    && (forall i, j :: 0 <= i < j < |ev.cells| ==> ev.cells[i].source != ev.cells[j].source)
  }

  lemma CellsIff(ev: Evidence)
    ensures CellsOk(ev) <==> TrueCells(ev)
  {
    forall k | 0 <= k < |ev.cells| ensures CellOk(ev, ev.cells[k]) <==> TrueCell(ev, ev.cells[k]) {}
  }

  /** `s` is one of the cells the entry lists. */
  ghost predicate ListsCell(e: Entry, s: Source) {
    match e
    case Direct(_, _, source, _) => s == source
    case Aggregate(_, _, sources, _, _) => s in sources
    case DerivedLocator(_, _, source, _, _) => s == source
    case ReferenceIdentity(_, _, _, _, _, _, _) => false
  }

  ghost predicate IsParserCell(ev: Evidence, s: Source) {
    exists k :: 0 <= k < |ev.cells| && ev.cells[k].source == s
  }

  ghost predicate CellUsed(ev: Evidence, s: Source) {
    exists k :: 0 <= k < |ev.expected| && ListsCell(ev.expected[k], s)
  }

  /** No reference identity, every listed cell a parser cell, none twice. */
  ghost predicate TrueRole(ev: Evidence, e: Entry) {
    && !e.ReferenceIdentity?
    && (forall s :: ListsCell(e, s) ==> IsParserCell(ev, s))
    && (e.Aggregate? ==> forall i, j :: 0 <= i < j < |e.sources| ==> e.sources[i] != e.sources[j])
  }

  /** The plan: one entry per target, on parser cells, using all of them. */
  ghost predicate TruePlan(ev: Evidence) {
    && |ev.expected| <= 30000
    && (forall i, j :: 0 <= i < j < |ev.expected| ==> ev.expected[i].target != ev.expected[j].target)
    && (forall k :: 0 <= k < |ev.expected| ==> TrueRole(ev, ev.expected[k]))
    && (forall k :: 0 <= k < |ev.cells| ==> CellUsed(ev, ev.cells[k].source))
  }

  lemma SourceListed(e: Entry, s: Source)
    ensures s in EntrySources(e) <==> ListsCell(e, s)
  {}

  lemma CellKnown(ev: Evidence, s: Source)
    ensures s in CellSources(ev.cells) <==> IsParserCell(ev, s)
  {}

  lemma RoleIff(ev: Evidence, e: Entry)
    ensures RoleOk(CellSources(ev.cells), e) <==> TrueRole(ev, e)
  {
    hide CellSources, IsParserCell;
    forall s ensures s in EntrySources(e) <==> ListsCell(e, s) {
      SourceListed(e, s);
    }
    forall s ensures s in CellSources(ev.cells) <==> IsParserCell(ev, s) {
      CellKnown(ev, s);
    }
    var sources := EntrySources(e);
    assert (forall j :: 0 <= j < |sources| ==> sources[j] in CellSources(ev.cells)) <==> forall s :: s in sources ==> IsParserCell(ev, s);
  }

  lemma UsedIff(ev: Evidence, s: Source)
    ensures s in SourceSet(ev.expected) <==> CellUsed(ev, s)
  {
    hide EntrySources, ListsCell;
    if s in SourceSet(ev.expected) {
      var k: nat, j: nat :| k < |ev.expected| && j < |EntrySources(ev.expected[k])| && EntrySources(ev.expected[k])[j] == s;
      SourceListed(ev.expected[k], s);
    }
    if CellUsed(ev, s) {
      var k :| 0 <= k < |ev.expected| && ListsCell(ev.expected[k], s);
      SourceListed(ev.expected[k], s);
      var j :| 0 <= j < |EntrySources(ev.expected[k])| && EntrySources(ev.expected[k])[j] == s;
    }
  }

  lemma PlanIff(ev: Evidence)
    ensures PlanOk(ev) <==> TruePlan(ev)
  {
    forall k | 0 <= k < |ev.expected| ensures RoleOk(CellSources(ev.cells), ev.expected[k]) <==> TrueRole(ev, ev.expected[k]) {
      RoleIff(ev, ev.expected[k]);
    }
    forall s
      ensures s in CellSources(ev.cells) <==> IsParserCell(ev, s)
      ensures s in SourceSet(ev.expected) <==> CellUsed(ev, s)
    {
      CellKnown(ev, s);
      UsedIff(ev, s);
    }
    hide RoleOk, CellSources, SourceSet, TrueRole, CellUsed, IsParserCell;
    if forall k :: 0 <= k < |ev.expected| ==> TrueRole(ev, ev.expected[k]) {
      UsedAreKnown(ev);
      assert SourceSet(ev.expected) == CellSources(ev.cells) <==> forall s :: IsParserCell(ev, s) ==> CellUsed(ev, s);
      EveryCellUsed(ev);
    }
  }

  lemma EveryCellUsed(ev: Evidence)
    ensures (forall s :: IsParserCell(ev, s) ==> CellUsed(ev, s)) <==> forall k :: 0 <= k < |ev.cells| ==> CellUsed(ev, ev.cells[k].source)
  {
    hide CellUsed;
    forall k | 0 <= k < |ev.cells| ensures IsParserCell(ev, ev.cells[k].source) {}
  }

  lemma UsedAreKnown(ev: Evidence)
    requires forall k :: 0 <= k < |ev.expected| ==> TrueRole(ev, ev.expected[k])
    ensures forall s :: CellUsed(ev, s) ==> IsParserCell(ev, s)
  {
    hide ListsCell, IsParserCell;
  }

  // ---------- One entry ----------

  ghost predicate EndsInLocator(t: Path) {
    |t| >= 2 && t[|t| - 1] == Key("locator")
  }

  /** A cell of the document's own file, with a locator. */
  ghost predicate TrueRef(ev: Evidence, s: CellRef) {
    && (s.sourceId, s.documentId, s.sourceHash) == (ev.sourceId, ev.document.documentId, ev.document.sourceHash)
    && ev.conv.strip(s.locator) != ""
  }

  ghost predicate FromOne(j: Json) {
    j.Int? && j.i >= 1
  }

  /** A type or hash copied from the document the registry holds under the role. */
  ghost predicate TrueReference(ev: Evidence, target: Path, role: string, id: string, revision: string, hash: string, contract: string, actual: Json) {
    && role in ev.registry
    && |target| >= 4 && target[..3] == [Key("fields"), Key("references"), Key(role)] && target[3].Key?
    && contract == "qualityci-derived-reference-identity-0.1"
    && var named := ev.registry[role];
       && (id, revision, hash) == (named.documentId, named.revision, named.sourceHash)
       && ((target[|target| - 1] == Key("document_type") && actual == Str(named.documentType))
           || (target[|target| - 1] == Key("source_hash") && actual == Str(named.sourceHash)))
  }

  /** The value is the document's at the target, and the evidence is of the kind the target asks for. */
  ghost predicate TrueEntry(ev: Evidence, m: Mapping) {
    var found := ValueAt(ev.document.root, m.target);
    && found.Some? && Seen(m.value) == Seen(found.value)
    && (EndsInLocator(m.target) <==> m.LocatorMapping?)
    && match m
       case DirectMapping(_, _, source, _) => TrueRef(ev, source) && Hashable(source.row)
       case AggregateMapping(_, _, sources, _, _) =>
         forall j :: 0 <= j < |sources| ==> TrueRef(ev, sources[j]) && Hashable(sources[j].row)
       case LocatorMapping(_, _, source, _, contract) =>
         TrueRef(ev, source) && FromOne(source.row) && FromOne(source.column) && contract == "qualityci-derived-locator-0.1"
       case ReferenceMapping(t, _, role, id, revision, hash, contract) =>
         TrueReference(ev, t, role, id, revision, hash, contract, found.value)
  }

  lemma RefFitsIff(ev: Evidence, s: CellRef)
    ensures RefFits(ev, s) <==> TrueRef(ev, s)
  {}

  lemma BackedIff(ev: Evidence, m: Mapping, actual: Json)
    requires m.ReferenceMapping?
    ensures BackedMapping(ev, m, actual) <==>
      TrueReference(ev, m.target, m.role, m.targetDocumentId, m.targetRevision, m.targetSourceHash, m.derivation, actual)
  {
    var t := m.target;
    if |t| > 3 {
      assert t[..3] == [t[0], t[1], t[2]];
    }
  }

  lemma OkIsTrue(ev: Evidence, m: Mapping)
    ensures SubmittedOk(ev, m) <==> TrueEntry(ev, m)
  {
    forall s ensures RefFits(ev, s) <==> TrueRef(ev, s) {
      RefFitsIff(ev, s);
    }
    var found := ValueAt(ev.document.root, m.target);
    if found.Some? {
      PyEqIff(m.value, found.value);
      if m.ReferenceMapping? {
        BackedIff(ev, m, found.value);
      }
    }
    hide RefFits, TrueRef, BackedMapping, TrueReference, PyEq, Seen, ValueAt;
    CellRefsIff(ev, m);
  }

  lemma CellRefsIff(ev: Evidence, m: Mapping)
    ensures m.DirectMapping? ==>
      ((forall j :: 0 <= j < |RefsOf(m)| ==> RefFits(ev, RefsOf(m)[j]) && Hashable(RefsOf(m)[j].row)) <==> TrueRef(ev, m.source) && Hashable(m.source.row))
    ensures m.AggregateMapping? ==>
      ((forall j :: 0 <= j < |RefsOf(m)| ==> RefFits(ev, RefsOf(m)[j]) && Hashable(RefsOf(m)[j].row)) <==>
        forall j :: 0 <= j < |m.sources| ==> TrueRef(ev, m.sources[j]) && Hashable(m.sources[j].row))
  {
    forall s ensures RefFits(ev, s) <==> TrueRef(ev, s) {
      RefFitsIff(ev, s);
    }
    hide RefFits, TrueRef, Hashable;
    var refs := RefsOf(m);
    assert m.DirectMapping? ==> refs == [m.source] && refs[0] == m.source;
    assert m.AggregateMapping? ==> refs == m.sources;
    assert (forall j :: 0 <= j < |refs| ==> RefFits(ev, refs[j]) && Hashable(refs[j].row)) <==>
      forall j :: 0 <= j < |refs| ==> TrueRef(ev, refs[j]) && Hashable(refs[j].row);
  }

  // ---------- Against the plan ----------

  /** The reference is the cell, its coordinates up to how numbers are written. */
  ghost predicate ShowsCell(s: CellRef, t: Source) {
    && s == CellRef(t.sourceId, t.documentId, t.sourceHash, t.locator, t.kind, s.row, s.column, t.header, t.rawValue)
    && Seen(s.row) == Real(t.row as real) && Seen(s.column) == Real(t.column as real)
  }

  /** The entry is the planned one: its kind, target, cells in order and contract, its value up to writing. */
  ghost predicate Shows(m: Mapping, e: Entry) {
    && m.target == e.target && Seen(m.value) == Seen(e.value)
    && match e
       case Direct(_, _, source, c) => m.DirectMapping? && ShowsCell(m.source, source) && m.conversion == c
       case Aggregate(_, _, sources, a, c) =>
         && m.AggregateMapping? && m.aggregation == a && m.conversion == c
         && |m.sources| == |sources| && forall k :: 0 <= k < |sources| ==> ShowsCell(m.sources[k], sources[k])
       case DerivedLocator(_, _, source, anchor, d) =>
         m.LocatorMapping? && ShowsCell(m.source, source) && m.anchor == anchor && m.derivation == d
       case ReferenceIdentity(_, _, role, id, revision, hash, d) =>
         && m.ReferenceMapping? && m.role == role && m.targetDocumentId == id && m.targetRevision == revision
         && m.targetSourceHash == hash && m.derivation == d
  }

  lemma ShowsCellIff(s: CellRef, t: Source)
    ensures RefEq(s, WrittenRef(t)) <==> ShowsCell(s, t)
  {
    PyEqIff(s.row, Int(t.row));
    PyEqIff(s.column, Int(t.column));
    hide PyEq;
  }

  lemma ShowsIff(m: Mapping, e: Entry)
    ensures MatchesPlan(m, e) <==> Shows(m, e)
  {
    PyEqIff(m.value, e.value);
    forall s, t ensures RefEq(s, WrittenRef(t)) <==> ShowsCell(s, t) {
      ShowsCellIff(s, t);
    }
    hide PyEq, Seen, RefEq, WrittenRef, ShowsCell;
  }

  ghost predicate ShownBy(ms: seq<Mapping>, e: Entry) {
    exists k :: 0 <= k < |ms| && Shows(ms[k], e)
  }

  ghost predicate ShowsPlanned(ev: Evidence, m: Mapping) {
    exists k :: 0 <= k < |ev.expected| && Shows(m, ev.expected[k])
  }

  /** Reference identities aside, the list shows the plan and nothing else. */
  ghost predicate ShowsPlan(ev: Evidence, ms: seq<Mapping>) {
    && (forall k :: 0 <= k < |ms| && !ms[k].ReferenceMapping? ==> ShowsPlanned(ev, ms[k]))
    && (forall k :: 0 <= k < |ev.expected| ==> ShownBy(ms, ev.expected[k]))
  }

  lemma ShowsPlanIff(ev: Evidence, ms: seq<Mapping>)
    ensures Follows(ev, ms) <==> ShowsPlan(ev, ms)
  {
    forall m, e ensures MatchesPlan(m, e) <==> Shows(m, e) {
      ShowsIff(m, e);
    }
    hide MatchesPlan, Shows;
    forall m ensures PlannedMapping(ev, m) <==> ShowsPlanned(ev, m) {}
    forall e ensures MappedHere(ms, e) <==> ShownBy(ms, e) {}
  }

  // ---------- Locators ----------

  /** `t` stands beside `p`: one key below it, and possibly indices below that key. */
  ghost predicate Beside(t: Path, p: Path) {
    || (p == t && forall j :: 1 <= j < |t| ==> t[j].At?)
    || (1 <= |p| < |t| && t[..|p|] == p && t[|p|].Key? && forall j :: |p| < j < |t| ==> t[j].At?)
  }

  lemma {:induction false} RowPrefixBeside(t: Path)
    ensures Beside(t, RowPrefix(t))
  {
    if |t| > 1 && !t[|t| - 1].Key? {
      var q := t[..|t| - 1];
      RowPrefixBeside(q);
      assert forall j :: 0 <= j < |q| ==> t[j] == q[j];
      if RowPrefix(q) != q {
        assert t[..|RowPrefix(q)|] == q[..|RowPrefix(q)|];
      }
    }
  }

  lemma OnePrefix(t: Path, p: Path, q: Path)
    requires Beside(t, p) && Beside(t, q)
    ensures p == q
  {
    assert t[..|t|] == t;
  }

  /** What a row's leaves share is the path up to their key. */
  lemma RowPrefixIff(t: Path, p: Path)
    ensures RowPrefix(t) == p <==> Beside(t, p)
  {
    RowPrefixBeside(t);
    if Beside(t, p) {
      OnePrefix(t, p, RowPrefix(t));
    }
  }

  /** `r` is the row of a cell that feeds a leaf beside `p`. */
  ghost predicate FeedsBeside(ms: seq<Mapping>, p: Path, r: Json) {
    exists k, j :: 0 <= k < |ms| && Beside(ms[k].target, p) && CellRow(ms[k], j, r)
  }

  ghost predicate CellRow(m: Mapping, j: int, r: Json) {
    match m
    case DirectMapping(_, _, source, _) => j == 0 && source.row == r
    case AggregateMapping(_, _, sources, _, _) => 0 <= j < |sources| && sources[j].row == r
    case _ => false
  }

  ghost predicate SameCell(s: CellRef, t: CellRef) {
    s.(row := Seen(s.row), column := Seen(s.column)) == t.(row := Seen(t.row), column := Seen(t.column))
  }

  ghost predicate AnchoredAt(ms: seq<Mapping>, anchor: Path, source: CellRef) {
    exists k :: 0 <= k < |ms| && ms[k].DirectMapping? && ms[k].target == anchor && SameCell(ms[k].source, source)
  }

  /** The leaf a row at `p` is found by. */
  ghost function AnchorPath(p: Path): Path {
    if |p| >= 3 && p[0] == Key("fields") && p[1] == Key("risks") && p[2].At? then p + [Key("failure_mode_id")]
    else p + [Key("characteristic_id")]
  }

  /** A row's locator is that of its anchor leaf's cell, and every cell beside it is in that cell's row. */
  ghost predicate TrueLocator(ms: seq<Mapping>, m: Mapping)
    requires m.LocatorMapping? && |m.target| >= 2
  {
    var p := m.target[..|m.target| - 1];
    && m.anchor == AnchorPath(p) && m.value == Str(m.source.locator) && AnchoredAt(ms, AnchorPath(p), m.source)
    && (exists r :: FeedsBeside(ms, p, r)) && forall r :: FeedsBeside(ms, p, r) ==> Seen(r) == Seen(m.source.row)
  }

  lemma RowsBesideIff(ms: seq<Mapping>, p: Path, r: Json)
    ensures r in RowsBeside(ms, p) <==> FeedsBeside(ms, p, r)
  {
    forall t ensures RowPrefix(t) == p <==> Beside(t, p) {
      RowPrefixIff(t, p);
    }
    hide RowPrefix, Beside;
    if r in RowsBeside(ms, p) {
      var k: nat, j: nat :| k < |ms| && j < |RefsOf(ms[k])| && IsCell(ms[k]) && RowPrefix(ms[k].target) == p && RefsOf(ms[k])[j].row == r;
      assert CellRow(ms[k], j, r);
    }
    if FeedsBeside(ms, p, r) {
      var k, j :| 0 <= k < |ms| && Beside(ms[k].target, p) && CellRow(ms[k], j, r);
      assert IsCell(ms[k]) && 0 <= j < |RefsOf(ms[k])| && RefsOf(ms[k])[j].row == r;
    }
  }

  lemma SameCellIff(s: CellRef, t: CellRef)
    ensures RefEq(s, t) <==> SameCell(s, t)
  {
    PyEqIff(s.row, t.row);
    PyEqIff(s.column, t.column);
    hide PyEq, Seen;
  }

  lemma AnchoredAtIff(ms: seq<Mapping>, m: Mapping)
    requires m.LocatorMapping?
    ensures (exists k :: 0 <= k < |ms| && AnchorsMapping(m, ms[k])) <==> AnchoredAt(ms, AnchorTarget(m.target), m.source)
  {
    forall s ensures RefEq(s, m.source) <==> SameCell(s, m.source) {
      SameCellIff(s, m.source);
    }
    hide RefEq, SameCell, AnchorTarget;
  }

  lemma LocatorRows(ms: seq<Mapping>, p: Path, row: Json)
    ensures OnlyRow(RowsBeside(ms, p), row) <==>
      (exists r :: FeedsBeside(ms, p, r)) && forall r :: FeedsBeside(ms, p, r) ==> Seen(r) == Seen(row)
  {
    forall r
      ensures r in RowsBeside(ms, p) <==> FeedsBeside(ms, p, r)
      ensures PyEq(r, row) <==> Seen(r) == Seen(row)
    {
      RowsBesideIff(ms, p, r);
      PyEqIff(r, row);
    }
    hide RowsBeside, FeedsBeside, PyEq, Seen;
  }

  lemma AnchorIs(t: Path)
    requires EndsInLocator(t)
    ensures RowPrefix(t) == t[..|t| - 1]
    ensures AnchorTarget(t) == AnchorPath(t[..|t| - 1])
  {}

  lemma LocatorIff(ms: seq<Mapping>, m: Mapping)
    requires m.LocatorMapping? && EndsInLocator(m.target)
    ensures AnchoredMapping(ms, m) <==> TrueLocator(ms, m)
  {
    hide RowPrefix, RowsBeside, FeedsBeside, AnchorsMapping, AnchoredAt, OnlyRow, Seen, AnchorTarget, AnchorPath;
    AnchorIs(m.target);
    LocatorRows(ms, m.target[..|m.target| - 1], m.source.row);
    AnchoredAtIff(ms, m);
  }

  // ---------- The whole list ----------

  /** The list documents every scalar of the fields once, from the plan's cells, with true values, locators and
      reference identities. */
  ghost predicate Documents(ev: Evidence, ms: seq<Mapping>) {
    && 1 <= |ms| <= 30000 && TrueCells(ev) && TruePlan(ev)
    && (forall i, j :: 0 <= i < j < |ms| ==> ms[i].target != ms[j].target)
    && (forall k :: 0 <= k < |ms| ==> TrueEntry(ev, ms[k]))
    && ShowsPlan(ev, ms)
    && (forall k :: 0 <= k < |ms| && ms[k].LocatorMapping? && EndsInLocator(ms[k].target) ==> TrueLocator(ms, ms[k]))
    && (forall q :: Scalar(ValueAt(ev.document.fields, q)) ==> Targeted(ms, [Key("fields")] + q))
    && (forall k :: 0 <= k < |ms| ==> LeadsToScalar(ev, ms[k].target))
  }

  ghost predicate Targeted(ms: seq<Mapping>, t: Path) {
    exists k :: 0 <= k < |ms| && ms[k].target == t
  }

  ghost predicate LeadsToScalar(ev: Evidence, t: Path) {
    t != [] && t[0] == Key("fields") && Scalar(ValueAt(ev.document.fields, t[1..]))
  }

  lemma LeavesIff(ev: Evidence, ms: seq<Mapping>)
    ensures ScalarLeaves(ev.document.fields, [Key("fields")]) == MappingTargets(ms) <==>
      && (forall q :: Scalar(ValueAt(ev.document.fields, q)) ==> Targeted(ms, [Key("fields")] + q))
      && (forall k :: 0 <= k < |ms| ==> LeadsToScalar(ev, ms[k].target))
  {
    var leaves := ScalarLeaves(ev.document.fields, [Key("fields")]);
    forall t ensures t in leaves <==> LeadsToScalar(ev, t) {
      LeafIff(ev.document.fields, [Key("fields")], t);
      if t != [] {
        assert [Key("fields")] <= t <==> t[0] == Key("fields");
      }
    }
    forall q ensures LeadsToScalar(ev, [Key("fields")] + q) <==> Scalar(ValueAt(ev.document.fields, q)) {
      assert ([Key("fields")] + q)[1..] == q;
    }
    forall t | LeadsToScalar(ev, t) ensures t == [Key("fields")] + t[1..] {}
    hide ScalarLeaves, ValueAt, Scalar;
    forall t ensures t in MappingTargets(ms) <==> Targeted(ms, t) {}
    TargetsCover(ev, ms, leaves);
  }

  lemma TargetsCover(ev: Evidence, ms: seq<Mapping>, leaves: set<Path>)
    requires forall t :: t in leaves <==> LeadsToScalar(ev, t)
    requires forall q :: LeadsToScalar(ev, [Key("fields")] + q) <==> Scalar(ValueAt(ev.document.fields, q))
    requires forall t :: LeadsToScalar(ev, t) ==> t == [Key("fields")] + t[1..]
    requires forall t :: t in MappingTargets(ms) <==> Targeted(ms, t)
    ensures leaves == MappingTargets(ms) <==>
      && (forall q :: Scalar(ValueAt(ev.document.fields, q)) ==> Targeted(ms, [Key("fields")] + q))
      && (forall k :: 0 <= k < |ms| ==> LeadsToScalar(ev, ms[k].target))
  {
    hide LeadsToScalar, ValueAt, Scalar, MappingTargets;
    forall k | 0 <= k < |ms| ensures Targeted(ms, ms[k].target) {}
    if leaves == MappingTargets(ms) {
      forall q | Scalar(ValueAt(ev.document.fields, q)) ensures Targeted(ms, [Key("fields")] + q) {
        assert [Key("fields")] + q in leaves;
      }
    } else if (forall q :: Scalar(ValueAt(ev.document.fields, q)) ==> Targeted(ms, [Key("fields")] + q))
      && (forall k :: 0 <= k < |ms| ==> LeadsToScalar(ev, ms[k].target)) {
      forall t ensures t in leaves <==> t in MappingTargets(ms) {
        if t in leaves {
          assert Targeted(ms, [Key("fields")] + t[1..]);
        }
        if Targeted(ms, t) {
          var k :| 0 <= k < |ms| && ms[k].target == t;
        }
      }
    }
  }

  /** The check accepts exactly the lists that document the fields. */
  lemma AcceptedMeans(ev: Evidence, ms: seq<Mapping>)
    ensures Admitted(ev, ms) <==> Documents(ev, ms)
  {
    CellsIff(ev);
    PlanIff(ev);
    ShowsPlanIff(ev, ms);
    LeavesIff(ev, ms);
    forall k | 0 <= k < |ms| ensures SubmittedOk(ev, ms[k]) <==> TrueEntry(ev, ms[k]) {
      OkIsTrue(ev, ms[k]);
    }
    forall k | 0 <= k < |ms| && ms[k].LocatorMapping? && EndsInLocator(ms[k].target)
      ensures AnchoredMapping(ms, ms[k]) <==> TrueLocator(ms, ms[k])
    {
      LocatorIff(ms, ms[k]);
    }
    hide CellsOk, TrueCells, PlanOk, TruePlan, Follows, ShowsPlan, ScalarLeaves, SubmittedOk, AnchoredMapping, TrueLocator, MappingTargets,
      LeadsToScalar, Targeted, ValueAt, Scalar;
    assert (forall k :: 0 <= k < |ms| ==> TrueEntry(ev, ms[k])) ==>
      forall k :: 0 <= k < |ms| && ms[k].LocatorMapping? ==> EndsInLocator(ms[k].target);
    hide TrueEntry;
  }
}

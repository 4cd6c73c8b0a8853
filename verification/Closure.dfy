/** The mapping closure check: a document's provenance against the parser plan, the parser cells, the
    final fields and the reference registry; the demands on lists with integer coordinates, and the two index passes
    over the parser's side. */
module Closure {
  import opened Json
  import opened Ordering
  import opened Provenance
  import opened EvidencePlanning
  import opened Tables

  const MAX_ARTIFACT_MAPPINGS := 30000

  datatype Identity = Identity(documentType: string, documentId: string, revision: string, sourceHash: string)

  datatype ParserCell = ParserCell(canonicalName: Canonical, rowNumber: int, source: Source)

  /** `root` is the whole document object, `fields` its member of that name. */
  datatype Document = Document(documentId: string, sourceHash: string, root: Json, fields: Json)

  /** The arguments of one check; the registry is empty where the caller passes none. */
  datatype Evidence = Evidence(conv: Conventions, sourceId: string, document: Document, cells: seq<ParserCell>,
                               expected: seq<Entry>, registry: map<string, Identity>)

  // ---------- Paths ----------

  predicate IsLocator(t: Path) {
    |t| > 1 && t[|t| - 1] == Key("locator")
  }

  /** `target.rsplit(".", 1)[0]`: what precedes the last key. */
  function RowPrefix(t: Path): Path {
    if |t| <= 1 then t
    else if t[|t| - 1].Key? then t[..|t| - 1]
    else
      var prefix := RowPrefix(t[..|t| - 1]);
      if prefix == t[..|t| - 1] then t else prefix
  }

  function AnchorTarget(t: Path): Path {
    RowPrefix(t) + [Key(if |t| > 2 && t[0] == Key("fields") && t[1] == Key("risks") && t[2].At? then "failure_mode_id" else "characteristic_id")]
  }

  // ---------- Entries ----------

  predicate IsCellEntry(e: Entry) {
    e.Direct? || e.Aggregate?
  }

  function EntrySources(e: Entry): seq<Source> {
    match e
    case Direct(_, _, source, _) => [source]
    case Aggregate(_, _, sources, _, _) => sources
    case DerivedLocator(_, _, source, _, _) => [source]
    case ReferenceIdentity(_, _, _, _, _, _, _) => []
  }

  function WithValue(e: Entry, v: Json): Entry {
    match e
    case Direct(t, _, source, c) => Direct(t, v, source, c)
    case Aggregate(t, _, sources, a, c) => Aggregate(t, v, sources, a, c)
    case DerivedLocator(t, _, source, anchor, d) => DerivedLocator(t, v, source, anchor, d)
    case ReferenceIdentity(t, _, role, id, revision, hash, d) => ReferenceIdentity(t, v, role, id, revision, hash, d)
  }

  /** Python equality of two entry dictionaries: everything alike, the values up to `==`. */
  predicate EntryEq(a: Entry, b: Entry) {
    PyEq(a.value, b.value) && WithValue(a, b.value) == b
  }

  lemma EntryEqKeeps(a: Entry, b: Entry)
    requires EntryEq(a, b)
    ensures a.target == b.target && EntrySources(a) == EntrySources(b) && IsCellEntry(a) == IsCellEntry(b)
    ensures a.Direct? == b.Direct? && a.DerivedLocator? == b.DerivedLocator? && a.ReferenceIdentity? == b.ReferenceIdentity?
  {}

  lemma EntryEqReflexive(e: Entry)
    ensures EntryEq(e, e)
  {
    PyEqReflexive(e.value);
  }

  ghost function Targets(entries: seq<Entry>): set<Path> {
    set k: nat | k < |entries| :: entries[k].target
  }

  ghost function SourceSet(entries: seq<Entry>): set<Source> {
    set k: nat, j: nat | k < |entries| && j < |EntrySources(entries[k])| :: EntrySources(entries[k])[j]
  }

  // ---------- What the check demands ----------

  predicate SameIdentity(ev: Evidence, s: Source) {
    s.documentId == ev.document.documentId && s.sourceHash == ev.document.sourceHash && s.sourceId == ev.sourceId
  }

  predicate CellOk(ev: Evidence, c: ParserCell) {
    c.rowNumber > 0 && c.source.row == c.rowNumber && SameIdentity(ev, c.source) && ev.conv.strip(c.source.header) != ""
  }

  ghost predicate CellsOk(ev: Evidence) {
    && 0 < |ev.cells| <= MAX_ARTIFACT_MAPPINGS
    && (forall k :: 0 <= k < |ev.cells| ==> CellOk(ev, ev.cells[k]))
    && (forall i, j :: 0 <= i < j < |ev.cells| ==> ev.cells[i].source != ev.cells[j].source)
  }

  ghost function CellSources(cells: seq<ParserCell>): set<Source> {
    set k: nat | k < |cells| :: cells[k].source
  }

  ghost predicate NoRepeats(sources: seq<Source>) {
    forall i, j :: 0 <= i < j < |sources| ==> sources[i] != sources[j]
  }

  /** One planned role: its cells are parser cells, none named twice. */
  ghost predicate RoleOk(known: set<Source>, e: Entry) {
    && !e.ReferenceIdentity? && NoRepeats(EntrySources(e))
    && forall j :: 0 <= j < |EntrySources(e)| ==> EntrySources(e)[j] in known
  }

  /** Distinct targets, every role backed, every parser cell used. */
  ghost predicate PlanOk(ev: Evidence) {
    && DistinctTargets(ev.expected) && |ev.expected| <= MAX_ARTIFACT_MAPPINGS
    && (forall k :: 0 <= k < |ev.expected| ==> RoleOk(CellSources(ev.cells), ev.expected[k]))
    && SourceSet(ev.expected) == CellSources(ev.cells)
  }

  predicate SourceFits(ev: Evidence, s: Source) {
    SameIdentity(ev, s) && ev.conv.strip(s.locator) != ""
  }

  function LeafOf(identity: Identity, name: string): string {
    if name == "document_type" then identity.documentType else identity.sourceHash
  }

  /** A reference identity copied from the registry's target. */
  predicate Backed(ev: Evidence, e: Entry, actual: Json)
    requires e.ReferenceIdentity?
  {
    && e.role in ev.registry
    && |e.target| > 3 && e.target[0] == Key("fields") && e.target[1] == Key("references") && e.target[2] == Key(e.role) && e.target[3].Key?
    && (e.target[|e.target| - 1] == Key("document_type") || e.target[|e.target| - 1] == Key("source_hash"))
    && e.derivation == REFERENCE_CONTRACT
    && e.targetDocumentId == ev.registry[e.role].documentId
    && e.targetRevision == ev.registry[e.role].revision
    && e.targetSourceHash == ev.registry[e.role].sourceHash
    && actual == Str(LeafOf(ev.registry[e.role], e.target[|e.target| - 1].name))
  }

  /** The checks on one entry by itself. */
  predicate MappingOk(ev: Evidence, e: Entry) {
    && (IsLocator(e.target) <==> e.DerivedLocator?)
    && ValueAt(ev.document.root, e.target).Some? && PyEq(e.value, ValueAt(ev.document.root, e.target).value)
    && (e.ReferenceIdentity? ==> Backed(ev, e, ValueAt(ev.document.root, e.target).value))
    && (e.DerivedLocator? ==>
          SourceFits(ev, e.source) && e.source.row > 0 && e.source.column > 0 && e.derivation == LOCATOR_CONTRACT)
    && (IsCellEntry(e) ==> forall j :: 0 <= j < |EntrySources(e)| ==> SourceFits(ev, EntrySources(e)[j]))
  }

  /** Rows of the cells feeding the leaves beside `prefix`. */
  ghost function DirectRows(mappings: seq<Entry>, prefix: Path): set<int> {
    set k: nat, j: nat |
      k < |mappings| && j < |EntrySources(mappings[k])| && IsCellEntry(mappings[k]) && RowPrefix(mappings[k].target) == prefix
      :: EntrySources(mappings[k])[j].row
  }

  /** `a` is the single-cell leaf a locator copies. */
  predicate Anchors(e: Entry, a: Entry)
    requires e.DerivedLocator?
  {
    a.target == AnchorTarget(e.target) && a.Direct? && a.source == e.source
  }

  /** A locator is the locator of its anchor's cell, and every cell beside it is in that cell's row. */
  ghost predicate Anchored(mappings: seq<Entry>, e: Entry)
    requires e.DerivedLocator?
  {
    && DirectRows(mappings, RowPrefix(e.target)) == {e.source.row}
    && e.anchor == AnchorTarget(e.target) && e.value == Str(e.source.locator)
    && exists k :: 0 <= k < |mappings| && Anchors(e, mappings[k])
  }

  ghost predicate PlannedFor(ev: Evidence, m: Entry) {
    exists k :: 0 <= k < |ev.expected| && EntryEq(m, ev.expected[k])
  }

  ghost predicate MappedAs(mappings: seq<Entry>, e: Entry) {
    exists k :: 0 <= k < |mappings| && EntryEq(mappings[k], e)
  }

  /** The reference identities aside, the entries are the planned ones up to Python equality of values. */
  ghost predicate FollowsPlan(ev: Evidence, mappings: seq<Entry>) {
    && (forall k :: 0 <= k < |mappings| && !mappings[k].ReferenceIdentity? ==> PlannedFor(ev, mappings[k]))
    && (forall k :: 0 <= k < |ev.expected| ==> MappedAs(mappings, ev.expected[k]))
  }

  /** What the check demands of a list with integer coordinates. */
  ghost predicate Closed(ev: Evidence, mappings: seq<Entry>) {
    && 0 < |mappings| <= MAX_ARTIFACT_MAPPINGS
    && CellsOk(ev) && PlanOk(ev)
    && DistinctTargets(mappings)
    && (forall k :: 0 <= k < |mappings| ==> MappingOk(ev, mappings[k]))
    && FollowsPlan(ev, mappings)
    && (forall k :: 0 <= k < |mappings| && mappings[k].DerivedLocator? ==> Anchored(mappings, mappings[k]))
    && ScalarLeaves(ev.document.fields, [Key("fields")]) == Targets(mappings)
  }

  // ---------- The check ----------

  method IndexParserCells(ev: Evidence) returns (r: Option<set<Source>>)
    ensures r.Some? <==> CellsOk(ev)
    ensures r.Some? ==> r.value == CellSources(ev.cells)
  {
    var known: set<Source> := {};
    var k := 0;
    while k < |ev.cells|
      invariant 0 <= k <= |ev.cells|
      invariant forall i :: 0 <= i < k ==> CellOk(ev, ev.cells[i])
      invariant forall i, j :: 0 <= i < j < k ==> ev.cells[i].source != ev.cells[j].source
      invariant known == CellSources(ev.cells[..k])
    {
      if !CellOk(ev, ev.cells[k]) || ev.cells[k].source in known {
        return None;
      }
      known := known + {ev.cells[k].source};
      k := k + 1;
    }
    assert ev.cells[..k] == ev.cells;
    if |ev.cells| == 0 || |ev.cells| > MAX_ARTIFACT_MAPPINGS {
      return None;
    }
    return Some(known);
  }

  /** One planned role's cells join the planned ones. */
  method TakeRole(known: set<Source>, e: Entry, planned: set<Source>) returns (r: Option<set<Source>>)
    ensures r.Some? <==> RoleOk(known, e)
    ensures r.Some? ==> forall s :: s in r.value <==> s in planned || s in EntrySources(e)
  {
    if e.ReferenceIdentity? {
      return None;
    }
    var roles: set<Source> := {};
    var sources := EntrySources(e);
    var j := 0;
    while j < |sources|
      invariant 0 <= j <= |sources|
      invariant forall i :: 0 <= i < j ==> sources[i] in known
      invariant NoRepeats(sources[..j])
      invariant forall s :: s in roles <==> s in sources[..j]
    {
      assert sources[..j + 1] == sources[..j] + [sources[j]];
      if sources[j] !in known || sources[j] in roles {
        return None;
      }
      roles := roles + {sources[j]};
      j := j + 1;
    }
    assert sources[..j] == sources;
    return Some(planned + roles);
  }

  method IndexPlan(ev: Evidence, known: set<Source>) returns (r: Option<map<Path, Entry>>)
    requires known == CellSources(ev.cells)
    ensures r.Some? <==> PlanOk(ev)
    ensures r.Some? ==> Indexes(r.value, ev.expected)
  {
    hide RoleOk, Targets, SourceSet, CellSources;
    NothingIndexed();
    var byTarget: map<Path, Entry> := map[];
    var planned: set<Source> := {};
    var k := 0;
    while k < |ev.expected|
      invariant 0 <= k <= |ev.expected|
      invariant Indexes(byTarget, ev.expected[..k]) && DistinctTargets(ev.expected[..k])
      invariant forall i :: 0 <= i < k ==> RoleOk(known, ev.expected[i])
      invariant planned == SourceSet(ev.expected[..k])
    {
      var e := ev.expected[k];
      IndexStep(byTarget, ev.expected, k);
      hide Indexes, DistinctTargets;
      if e.target in byTarget {
        return None;
      }
      var taken := TakeRole(known, e, planned);
      if taken.None? {
        return None;
      }
      SourceSetStep(ev.expected[..k], e);
      planned := taken.value;
      byTarget := byTarget[e.target := e];
      assert ev.expected[..k + 1] == ev.expected[..k] + [e];
      k := k + 1;
    }
    assert ev.expected[..k] == ev.expected;
    if |ev.expected| > MAX_ARTIFACT_MAPPINGS || planned != known {
      return None;
    }
    return Some(byTarget);
  }

  /** A dictionary from targets to the listed entries. */
  ghost predicate Indexes(byTarget: map<Path, Entry>, entries: seq<Entry>) {
    && (forall k :: 0 <= k < |entries| ==> entries[k].target in byTarget && byTarget[entries[k].target] == entries[k])
    && (forall t :: t in byTarget ==> t in Targets(entries))
  }

  lemma TargetIndexed(byTarget: map<Path, Entry>, entries: seq<Entry>, e: Entry)
    requires Indexes(byTarget, entries)
    ensures e.target in byTarget <==> exists k :: 0 <= k < |entries| && entries[k].target == e.target
  {}

  lemma NothingIndexed()
    ensures Indexes(map[], []) && DistinctTargets([]) && SourceSet([]) == {}
  {}

  /** One more entry: its target is new and is indexed, or the list repeats a target. */
  lemma IndexStep(byTarget: map<Path, Entry>, entries: seq<Entry>, k: nat)
    requires k < |entries| && Indexes(byTarget, entries[..k]) && DistinctTargets(entries[..k])
    ensures entries[k].target in byTarget ==> !DistinctTargets(entries)
    ensures entries[k].target !in byTarget ==>
      Indexes(byTarget[entries[k].target := entries[k]], entries[..k + 1]) && DistinctTargets(entries[..k + 1])
  {
    var e := entries[k];
    TargetIndexed(byTarget, entries[..k], e);
    if e.target !in byTarget {
      var more := byTarget[e.target := e];
      forall t | t in more ensures t in Targets(entries[..k + 1]) {
        if t == e.target {
          assert entries[..k + 1][k].target == t;
        } else {
          var i: nat :| i < k && entries[..k][i].target == t;
          assert entries[..k + 1][i].target == t;
        }
      }
    }
  }

  lemma SourceSetStep(entries: seq<Entry>, e: Entry)
    ensures forall s :: s in SourceSet(entries + [e]) <==> s in SourceSet(entries) || s in EntrySources(e)
  {
    var more := entries + [e];
    assert forall k :: 0 <= k < |entries| ==> more[k] == entries[k];
    assert more[|entries|] == e;
    forall s ensures s in SourceSet(more) <==> s in SourceSet(entries) || s in EntrySources(e) {
      if s in SourceSet(more) {
        var k: nat, j: nat :| k < |more| && j < |EntrySources(more[k])| && EntrySources(more[k])[j] == s;
        if k < |entries| {
          assert EntrySources(entries[k])[j] == s;
        } else {
          assert EntrySources(e)[j] == s;
        }
      }
      if s in SourceSet(entries) {
        var k: nat, j: nat :| k < |entries| && j < |EntrySources(entries[k])| && EntrySources(entries[k])[j] == s;
        assert EntrySources(more[k])[j] == s;
      }
      if s in EntrySources(e) {
        var j: nat :| j < |EntrySources(e)| && EntrySources(e)[j] == s;
        assert EntrySources(more[|entries|])[j] == s;
      }
    }
  }

  // ---------- Values that only Python calls equal ----------

  /** The same list with some cell values exchanged for values Python calls equal. */
  ghost predicate Exchanged(a: seq<Entry>, b: seq<Entry>) {
    |a| == |b| && forall k :: 0 <= k < |a| ==> a[k] == b[k] || (IsCellEntry(a[k]) && EntryEq(b[k], a[k]))
  }

  lemma ExchangedAt(a: seq<Entry>, b: seq<Entry>, k: nat)
    requires Exchanged(a, b) && k < |a|
    ensures EntryEq(b[k], a[k]) && a[k].target == b[k].target && EntrySources(a[k]) == EntrySources(b[k])
    ensures IsCellEntry(a[k]) == IsCellEntry(b[k]) && a[k].Direct? == b[k].Direct?
    ensures a[k].DerivedLocator? == b[k].DerivedLocator? && a[k].ReferenceIdentity? == b[k].ReferenceIdentity?
    ensures !IsCellEntry(a[k]) ==> a[k] == b[k]
  {
    EntryEqReflexive(a[k]);
    EntryEqKeeps(b[k], a[k]);
  }

  lemma ExchangedRows(a: seq<Entry>, b: seq<Entry>, p: Path)
    requires Exchanged(a, b)
    ensures DirectRows(a, p) == DirectRows(b, p)
  {
    assert |a| == |b|;
    hide EntrySources, RowPrefix, IsCellEntry, EntryEq, Exchanged;
    forall k | 0 <= k < |a|
      ensures EntrySources(a[k]) == EntrySources(b[k]) && IsCellEntry(a[k]) == IsCellEntry(b[k]) && a[k].target == b[k].target
    {
      ExchangedAt(a, b, k);
    }
    SameRows(a, b, p);
    SameRows(b, a, p);
  }

  lemma SameRows(a: seq<Entry>, b: seq<Entry>, p: Path)
    requires |a| == |b|
    requires forall k :: 0 <= k < |a| ==>
      EntrySources(a[k]) == EntrySources(b[k]) && IsCellEntry(a[k]) == IsCellEntry(b[k]) && a[k].target == b[k].target
    ensures DirectRows(a, p) <= DirectRows(b, p)
  {
    hide EntrySources, RowPrefix, IsCellEntry;
    forall n | n in DirectRows(a, p) ensures n in DirectRows(b, p) {
      var k: nat, j: nat :| k < |a| && j < |EntrySources(a[k])| && IsCellEntry(a[k])
        && RowPrefix(a[k].target) == p && EntrySources(a[k])[j].row == n;
      assert EntrySources(b[k])[j].row == n;
    }
  }

  lemma ExchangedTargets(a: seq<Entry>, b: seq<Entry>)
    requires Exchanged(a, b)
    ensures Targets(a) == Targets(b) && (DistinctTargets(a) ==> DistinctTargets(b))
  {
    hide EntrySources, IsCellEntry, EntryEq;
    forall k | 0 <= k < |a| ensures a[k].target == b[k].target {
      ExchangedAt(a, b, k);
    }
  }

  lemma ExchangedAnchors(a: seq<Entry>, b: seq<Entry>, k: nat)
    requires Exchanged(a, b) && k < |a| && a[k].DerivedLocator? && Anchored(a, a[k])
    ensures b[k] == a[k] && Anchored(b, b[k])
  {
    ExchangedAt(a, b, k);
    ExchangedRows(a, b, RowPrefix(a[k].target));
    hide EntrySources, IsCellEntry, EntryEq, RowPrefix, AnchorTarget, Exchanged, DirectRows;
    var i :| 0 <= i < |a| && Anchors(a[k], a[i]);
    ExchangedAt(a, b, i);
    SingleSource(a[i], b[i]);
    assert Anchors(b[k], b[i]);
  }

  lemma SingleSource(x: Entry, y: Entry)
    requires x.Direct? && y.Direct? && EntrySources(x) == EntrySources(y)
    ensures x.source == y.source
  {
    assert EntrySources(x)[0] == EntrySources(y)[0];
  }

  lemma ExchangedMapping(ev: Evidence, m: Entry, n: Entry)
    requires MappingOk(ev, m) && IsCellEntry(m) && EntryEq(n, m)
    ensures MappingOk(ev, n)
  {
    EntryEqKeeps(n, m);
    PyEqTransitive(n.value, m.value, ValueAt(ev.document.root, m.target).value);
  }

  lemma EntryEqTransitive(a: Entry, b: Entry, c: Entry)
    requires EntryEq(a, b) && EntryEq(b, c)
    ensures EntryEq(a, c)
  {
    PyEqTransitive(a.value, b.value, c.value);
  }

  lemma ExchangedPlan(ev: Evidence, a: seq<Entry>, b: seq<Entry>)
    requires FollowsPlan(ev, a) && Exchanged(a, b)
    ensures FollowsPlan(ev, b)
  {
    assert |a| == |b|;
    hide EntrySources, IsCellEntry, EntryEq, Exchanged;
    forall k | 0 <= k < |b| && !b[k].ReferenceIdentity? ensures PlannedFor(ev, b[k]) {
      ExchangedAt(a, b, k);
      assert PlannedFor(ev, a[k]);
      var j :| 0 <= j < |ev.expected| && EntryEq(a[k], ev.expected[j]);
      EntryEqTransitive(b[k], a[k], ev.expected[j]);
    }
    forall j | 0 <= j < |ev.expected| ensures MappedAs(b, ev.expected[j]) {
      assert MappedAs(a, ev.expected[j]);
      var k :| 0 <= k < |a| && EntryEq(a[k], ev.expected[j]);
      ExchangedAt(a, b, k);
      EntryEqTransitive(b[k], a[k], ev.expected[j]);
    }
  }

  /** Accepted cell values may be exchanged for values Python calls equal: `True`, `1` and `1.0` pass for
      one another, so the returned list does not fix the values' types. */
  lemma EqualValuesInterchange(ev: Evidence, a: seq<Entry>, b: seq<Entry>)
    requires Closed(ev, a) && Exchanged(a, b)
    ensures Closed(ev, b)
  {
    ExchangedPlan(ev, a, b);
    ExchangedTargets(a, b);
    assert |a| == |b|;
    hide CellsOk, PlanOk, FollowsPlan, MappingOk, Anchored, ScalarLeaves, EntryEq, IsCellEntry, EntrySources, Exchanged, Targets;
    forall k | 0 <= k < |b| ensures MappingOk(ev, b[k]) {
      ExchangedAt(a, b, k);
      if IsCellEntry(a[k]) { ExchangedMapping(ev, a[k], b[k]); }
    }
    forall k | 0 <= k < |b| && b[k].DerivedLocator? ensures Anchored(b, b[k]) {
      ExchangedAt(a, b, k);
      ExchangedAnchors(a, b, k);
    }
  }
}

/** The closure check on a list as it arrives: coordinates are any JSON, and Python's `==` compares them. */
module Submitted {
  import opened Json
  import opened Ordering
  import opened Provenance
  import opened EvidencePlanning
  import opened Tables
  import opened Closure

  // ---------- What arrives ----------

  datatype CellRef = CellRef(sourceId: string, documentId: string, sourceHash: string, locator: string, kind: string,
                             row: Json, column: Json, header: string, rawValue: string)

  /** An entry of the list under check; the constructors are those of `Entry`. */
  datatype Mapping =
    | DirectMapping(target: Path, value: Json, source: CellRef, conversion: string)
    | AggregateMapping(target: Path, value: Json, sources: seq<CellRef>, aggregation: string, conversion: string)
    | LocatorMapping(target: Path, value: Json, source: CellRef, anchor: Path, derivation: string)
    | ReferenceMapping(target: Path, value: Json, role: string, targetDocumentId: string,
                       targetRevision: string, targetSourceHash: string, derivation: string)

  predicate IsCell(m: Mapping) {
    m.DirectMapping? || m.AggregateMapping?
  }

  function RefsOf(m: Mapping): seq<CellRef> {
    match m
    case DirectMapping(_, _, source, _) => [source]
    case AggregateMapping(_, _, sources, _, _) => sources
    case LocatorMapping(_, _, source, _, _) => [source]
    case ReferenceMapping(_, _, _, _, _, _, _) => []
  }

  function MappingKey(m: Mapping): seq<string> {
    [TargetText(m.target)]
  }

  // ---------- Entries as the builder and the plan write them ----------

  function WrittenRef(s: Source): CellRef {
    CellRef(s.sourceId, s.documentId, s.sourceHash, s.locator, s.kind, Int(s.row), Int(s.column), s.header, s.rawValue)
  }

  function WrittenRefs(sources: seq<Source>): (r: seq<CellRef>)
    ensures |r| == |sources| && forall k :: 0 <= k < |r| ==> r[k] == WrittenRef(sources[k])
  {
    Mapped(WrittenRef, sources)
  }

  function Written(e: Entry): Mapping {
    match e
    case Direct(t, v, source, c) => DirectMapping(t, v, WrittenRef(source), c)
    case Aggregate(t, v, sources, a, c) => AggregateMapping(t, v, WrittenRefs(sources), a, c)
    case DerivedLocator(t, v, source, anchor, d) => LocatorMapping(t, v, WrittenRef(source), anchor, d)
    case ReferenceIdentity(t, v, role, id, revision, hash, d) => ReferenceMapping(t, v, role, id, revision, hash, d)
  }

  function WrittenAll(entries: seq<Entry>): (r: seq<Mapping>)
    ensures |r| == |entries| && forall k :: 0 <= k < |r| ==> r[k] == Written(entries[k])
  {
    Mapped(Written, entries)
  }

  // ---------- Python equality ----------

  predicate RefEq(s: CellRef, t: CellRef) {
    PyEq(s.row, t.row) && PyEq(s.column, t.column) && s.(row := t.row, column := t.column) == t
  }

  predicate RefsEq(a: seq<CellRef>, b: seq<CellRef>) {
    |a| == |b| && forall k :: 0 <= k < |a| ==> RefEq(a[k], b[k])
  }

  predicate MappingEq(m: Mapping, n: Mapping) {
    && m.target == n.target && PyEq(m.value, n.value)
    && match m {
      case DirectMapping(_, _, source, c) => n.DirectMapping? && RefEq(source, n.source) && c == n.conversion
      case AggregateMapping(_, _, sources, a, c) =>
        n.AggregateMapping? && RefsEq(sources, n.sources) && a == n.aggregation && c == n.conversion
      case LocatorMapping(_, _, source, anchor, d) =>
        n.LocatorMapping? && RefEq(source, n.source) && anchor == n.anchor && d == n.derivation
      case ReferenceMapping(_, v, _, _, _, _, _) => n.ReferenceMapping? && n == m.(value := n.value)
    }
  }

  /** The entry equals the planned one as Python compares dictionaries. */
  predicate MatchesPlan(m: Mapping, e: Entry) {
    MappingEq(m, Written(e))
  }

  // ---------- What the check demands ----------

  ghost predicate DistinctMappings(ms: seq<Mapping>) {
    forall i, j :: 0 <= i < j < |ms| ==> ms[i].target != ms[j].target
  }

  ghost function MappingTargets(ms: seq<Mapping>): set<Path> {
    set k: nat | k < |ms| :: ms[k].target
  }

  predicate RefFits(ev: Evidence, s: CellRef) {
    && s.documentId == ev.document.documentId && s.sourceHash == ev.document.sourceHash && s.sourceId == ev.sourceId
    && ev.conv.strip(s.locator) != ""
  }

  predicate Positive(j: Json) {
    j.Int? && j.i > 0
  }

  predicate BackedMapping(ev: Evidence, m: Mapping, actual: Json)
    requires m.ReferenceMapping?
  {
    Backed(ev, ReferenceIdentity(m.target, m.value, m.role, m.targetDocumentId, m.targetRevision, m.targetSourceHash, m.derivation), actual)
  }

  /** The checks on one entry by itself: a locator's coordinates must be positive integers, a cell's need not. */
  predicate SubmittedOk(ev: Evidence, m: Mapping) {
    && (IsLocator(m.target) <==> m.LocatorMapping?)
    && ValueAt(ev.document.root, m.target).Some? && PyEq(m.value, ValueAt(ev.document.root, m.target).value)
    && (m.ReferenceMapping? ==> BackedMapping(ev, m, ValueAt(ev.document.root, m.target).value))
    && (m.LocatorMapping? ==>
          RefFits(ev, m.source) && Positive(m.source.row) && Positive(m.source.column) && m.derivation == LOCATOR_CONTRACT)
    && (IsCell(m) ==> forall j :: 0 <= j < |RefsOf(m)| ==> RefFits(ev, RefsOf(m)[j]) && Hashable(RefsOf(m)[j].row))
  }

  /** Row numbers of the cells feeding the leaves beside `prefix`. */
  ghost function RowsBeside(ms: seq<Mapping>, prefix: Path): set<Json> {
    set k: nat, j: nat | k < |ms| && j < |RefsOf(ms[k])| && IsCell(ms[k]) && RowPrefix(ms[k].target) == prefix :: RefsOf(ms[k])[j].row
  }

  /** The Python sets are equal: there is a row, and all of them equal this one. */
  ghost predicate OnlyRow(rows: set<Json>, row: Json) {
    rows != {} && forall r :: r in rows ==> PyEq(r, row)
  }

  predicate AnchorsMapping(m: Mapping, a: Mapping)
    requires m.LocatorMapping?
  {
    a.target == AnchorTarget(m.target) && a.DirectMapping? && RefEq(a.source, m.source)
  }

  ghost predicate AnchoredMapping(ms: seq<Mapping>, m: Mapping)
    requires m.LocatorMapping?
  {
    && OnlyRow(RowsBeside(ms, RowPrefix(m.target)), m.source.row)
    && m.anchor == AnchorTarget(m.target) && m.value == Str(m.source.locator)
    && exists k :: 0 <= k < |ms| && AnchorsMapping(m, ms[k])
  }

  ghost predicate PlannedMapping(ev: Evidence, m: Mapping) {
    exists k :: 0 <= k < |ev.expected| && MatchesPlan(m, ev.expected[k])
  }

  ghost predicate MappedHere(ms: seq<Mapping>, e: Entry) {
    exists k :: 0 <= k < |ms| && MatchesPlan(ms[k], e)
  }

  ghost predicate Follows(ev: Evidence, ms: seq<Mapping>) {
    && (forall k :: 0 <= k < |ms| && !ms[k].ReferenceMapping? ==> PlannedMapping(ev, ms[k]))
    && (forall k :: 0 <= k < |ev.expected| ==> MappedHere(ms, ev.expected[k]))
  }

  /** Everything `_validate_mapping_closure` demands. */
  ghost predicate Admitted(ev: Evidence, ms: seq<Mapping>) {
    && 0 < |ms| <= MAX_ARTIFACT_MAPPINGS
    && CellsOk(ev) && PlanOk(ev)
    && DistinctMappings(ms)
    && (forall k :: 0 <= k < |ms| ==> SubmittedOk(ev, ms[k]))
    && Follows(ev, ms)
    && (forall k :: 0 <= k < |ms| && ms[k].LocatorMapping? ==> AnchoredMapping(ms, ms[k]))
    && ScalarLeaves(ev.document.fields, [Key("fields")]) == MappingTargets(ms)
  }

  // ---------- The check ----------

  /** A dictionary from targets to the listed entries. */
  ghost predicate IndexesMappings(byTarget: map<Path, Mapping>, ms: seq<Mapping>) {
    && (forall k :: 0 <= k < |ms| ==> ms[k].target in byTarget && byTarget[ms[k].target] == ms[k])
    && (forall t :: t in byTarget ==> t in MappingTargets(ms))
  }

  lemma MappingIndexed(byTarget: map<Path, Mapping>, ms: seq<Mapping>, m: Mapping)
    requires IndexesMappings(byTarget, ms)
    ensures m.target in byTarget <==> exists k :: 0 <= k < |ms| && ms[k].target == m.target
  {}

  /** What the pass over the list collects. */
  ghost predicate Collected(ev: Evidence, ms: seq<Mapping>, byTarget: map<Path, Mapping>, rows: map<Path, set<Json>>,
                            derived: seq<Path>, references: set<Path>)
  {
    && IndexesMappings(byTarget, ms) && DistinctMappings(ms)
    && (forall k :: 0 <= k < |ms| ==> SubmittedOk(ev, ms[k]))
    && (forall p :: RowsAt(rows, p) == RowsBeside(ms, p))
    && (forall k :: 0 <= k < |ms| && ms[k].LocatorMapping? ==> ms[k].target in derived)
    && (forall t :: t in derived ==> t in byTarget && byTarget[t].LocatorMapping?)
    && (forall t :: t in references <==> t in byTarget && byTarget[t].ReferenceMapping?)
  }

  function RowsAt(rows: map<Path, set<Json>>, p: Path): set<Json> {
    if p in rows then rows[p] else {}
  }

  ghost predicate HasRow(m: Mapping, n: Json) {
    exists j :: 0 <= j < |RefsOf(m)| && RefsOf(m)[j].row == n
  }

  lemma RowsBesideStep(ms: seq<Mapping>, m: Mapping, p: Path)
    ensures forall n :: n in RowsBeside(ms + [m], p) <==> n in RowsBeside(ms, p) || (IsCell(m) && RowPrefix(m.target) == p && HasRow(m, n))
  {
    hide RefsOf, RowPrefix, IsCell;
    var more := ms + [m];
    assert forall k :: 0 <= k < |ms| ==> more[k] == ms[k];
    assert more[|ms|] == m;
    forall n | n in RowsBeside(ms, p) ensures n in RowsBeside(more, p) {
      var k: nat, j: nat :| k < |ms| && j < |RefsOf(ms[k])| && IsCell(ms[k]) && RowPrefix(ms[k].target) == p && RefsOf(ms[k])[j].row == n;
      assert RefsOf(more[k])[j].row == n;
    }
    forall j | 0 <= j < |RefsOf(m)| && IsCell(m) && RowPrefix(m.target) == p ensures RefsOf(m)[j].row in RowsBeside(more, p) {
      assert RefsOf(more[|ms|])[j].row == RefsOf(m)[j].row;
    }
    forall n | n in RowsBeside(more, p) && n !in RowsBeside(ms, p) ensures IsCell(m) && RowPrefix(m.target) == p && HasRow(m, n) {
      var k: nat, j: nat :| k < |more| && j < |RefsOf(more[k])| && IsCell(more[k]) && RowPrefix(more[k].target) == p && RefsOf(more[k])[j].row == n;
      assert k == |ms|;
    }
  }

  /** The rows of a cell entry's sources, added under its prefix. */
  method AddRows(rows: map<Path, set<Json>>, m: Mapping) returns (r: map<Path, set<Json>>)
    ensures forall p :: forall n :: n in RowsAt(r, p) <==> n in RowsAt(rows, p) || (RowPrefix(m.target) == p && HasRow(m, n))
  {
    var prefix := RowPrefix(m.target);
    var refs := RefsOf(m);
    r := rows;
    var j := 0;
    while j < |refs|
      invariant 0 <= j <= |refs|
      invariant forall p :: p != prefix ==> RowsAt(r, p) == RowsAt(rows, p)
      invariant forall n :: n in RowsAt(r, prefix) <==> n in RowsAt(rows, prefix) || exists i :: 0 <= i < j && refs[i].row == n
    {
      r := r[prefix := RowsAt(r, prefix) + {refs[j].row}];
      j := j + 1;
    }
  }

  lemma CollectedStep(ev: Evidence, ms: seq<Mapping>, m: Mapping, byTarget: map<Path, Mapping>, rows: map<Path, set<Json>>,
                      derived: seq<Path>, references: set<Path>, rows': map<Path, set<Json>>)
    requires Collected(ev, ms, byTarget, rows, derived, references)
    requires SubmittedOk(ev, m) && m.target !in byTarget
    requires !IsCell(m) ==> rows' == rows
    requires IsCell(m) ==> forall p :: forall n :: n in RowsAt(rows', p) <==> n in RowsAt(rows, p) || (RowPrefix(m.target) == p && HasRow(m, n))
    ensures Collected(ev, ms + [m], byTarget[m.target := m], rows',
                      if m.LocatorMapping? then derived + [m.target] else derived,
                      if m.ReferenceMapping? then references + {m.target} else references)
  {
    hide SubmittedOk, RowPrefix, RefsOf, HasRow;
    MappingIndexed(byTarget, ms, m);
    forall p ensures RowsAt(rows', p) == RowsBeside(ms + [m], p) {
      RowsBesideStep(ms, m, p);
      assert RowsAt(rows, p) == RowsBeside(ms, p);
      assert forall n :: n in RowsAt(rows', p) <==> n in RowsBeside(ms + [m], p);
    }
    hide RowsAt, RowsBeside, IndexesMappings, DistinctMappings;
    IndexMore(ms, m, byTarget);
  }

  lemma IndexMore(ms: seq<Mapping>, m: Mapping, byTarget: map<Path, Mapping>)
    requires IndexesMappings(byTarget, ms) && DistinctMappings(ms) && m.target !in byTarget
    ensures IndexesMappings(byTarget[m.target := m], ms + [m]) && DistinctMappings(ms + [m])
  {
    var more := ms + [m];
    forall t | t in MappingTargets(ms) ensures t in MappingTargets(more) {
      var k: nat :| k < |ms| && ms[k].target == t;
      assert more[k].target == t;
    }
    assert more[|ms|].target == m.target;
  }

  method IndexMappings(ev: Evidence, ms: seq<Mapping>)
    returns (ok: bool, byTarget: map<Path, Mapping>, rows: map<Path, set<Json>>, derived: seq<Path>, references: set<Path>)
    ensures ok <==> DistinctMappings(ms) && forall k :: 0 <= k < |ms| ==> SubmittedOk(ev, ms[k])
    ensures ok ==> Collected(ev, ms, byTarget, rows, derived, references)
  {
    hide SubmittedOk, HasRow;
    byTarget, rows, derived, references := map[], map[], [], {};
    var k := 0;
    while k < |ms|
      invariant 0 <= k <= |ms|
      invariant Collected(ev, ms[..k], byTarget, rows, derived, references)
    {
      var m := ms[k];
      MappingIndexed(byTarget, ms[..k], m);
      if m.target in byTarget || !SubmittedOk(ev, m) {
        return false, byTarget, rows, derived, references;
      }
      var rows' := rows;
      if IsCell(m) {
        rows' := AddRows(rows, m);
      }
      CollectedStep(ev, ms[..k], m, byTarget, rows, derived, references, rows');
      byTarget := byTarget[m.target := m];
      rows := rows';
      derived := if m.LocatorMapping? then derived + [m.target] else derived;
      references := if m.ReferenceMapping? then references + {m.target} else references;
      assert ms[..k + 1] == ms[..k] + [m];
      k := k + 1;
    }
    assert ms[..k] == ms;
    return true, byTarget, rows, derived, references;
  }

  lemma MatchKeeps(m: Mapping, e: Entry)
    requires MatchesPlan(m, e)
    ensures m.target == e.target && (m.ReferenceMapping? <==> e.ReferenceIdentity?) && (m.LocatorMapping? <==> e.DerivedLocator?)
    ensures (m.DirectMapping? <==> e.Direct?) && (m.AggregateMapping? <==> e.Aggregate?)
  {}

  /** The comparison with the plan, target by target. */
  method ComparePlan(ev: Evidence, ms: seq<Mapping>, byTarget: map<Path, Mapping>, references: set<Path>, planned: map<Path, Entry>)
    returns (ok: bool)
    requires PlanOk(ev) && Indexes(planned, ev.expected)
    requires IndexesMappings(byTarget, ms) && DistinctMappings(ms)
    requires forall t :: t in references <==> t in byTarget && byTarget[t].ReferenceMapping?
    ensures ok <==> Follows(ev, ms)
  {
    hide MatchesPlan, RoleOk, SourceSet, CellSources, PlannedMapping, MappedHere, DistinctTargets, DistinctMappings;
    if planned.Keys != byTarget.Keys - references {
      TargetSetsDiffer(ev, ms, byTarget, references, planned);
      return false;
    }
    var k := 0;
    while k < |ev.expected|
      invariant 0 <= k <= |ev.expected|
      invariant forall i :: 0 <= i < k ==> byTarget[ev.expected[i].target] in ms && MatchesPlan(byTarget[ev.expected[i].target], ev.expected[i])
    {
      var expected := ev.expected[k];
      assert expected.target in byTarget.Keys;
      var t: nat :| t < |ms| && ms[t].target == expected.target;
      if !MatchesPlan(byTarget[expected.target], expected) {
        NotMapped(ms, t, expected);
        return false;
      }
      k := k + 1;
    }
    ComparedAll(ev, ms, byTarget, references, planned);
    return true;
  }

  lemma NotMapped(ms: seq<Mapping>, t: nat, expected: Entry)
    requires DistinctMappings(ms) && t < |ms| && ms[t].target == expected.target
    ensures MappedHere(ms, expected) <==> MatchesPlan(ms[t], expected)
  {
    if MappedHere(ms, expected) {
      var k :| 0 <= k < |ms| && MatchesPlan(ms[k], expected);
      MatchKeeps(ms[k], expected);
      assert k == t;
    }
  }

  lemma TargetSetsDiffer(ev: Evidence, ms: seq<Mapping>, byTarget: map<Path, Mapping>, references: set<Path>, planned: map<Path, Entry>)
    requires PlanOk(ev) && Indexes(planned, ev.expected)
    requires IndexesMappings(byTarget, ms) && DistinctMappings(ms)
    requires forall t :: t in references <==> t in byTarget && byTarget[t].ReferenceMapping?
    ensures Follows(ev, ms) ==> planned.Keys == byTarget.Keys - references
  {
    hide MatchesPlan, RoleOk, SourceSet, CellSources, PlannedMapping, MappedHere, DistinctTargets, DistinctMappings;
    if Follows(ev, ms) {
      forall t | t in planned ensures t in byTarget && t !in references {
        var k: nat :| k < |ev.expected| && ev.expected[k].target == t;
        assert RoleOk(CellSources(ev.cells), ev.expected[k]) && MappedHere(ms, ev.expected[k]);
        MappedOnce(ev, ms, byTarget, k);
      }
      forall t | t in byTarget && t !in references ensures t in planned {
        var k: nat :| k < |ms| && ms[k].target == t;
        assert PlannedMapping(ev, ms[k]);
        PlannedTarget(ev, ms[k], planned);
      }
    }
  }

  lemma MappedOnce(ev: Evidence, ms: seq<Mapping>, byTarget: map<Path, Mapping>, k: nat)
    requires k < |ev.expected| && IndexesMappings(byTarget, ms)
    requires RoleOk(CellSources(ev.cells), ev.expected[k]) && MappedHere(ms, ev.expected[k])
    ensures ev.expected[k].target in byTarget && !byTarget[ev.expected[k].target].ReferenceMapping?
  {
    hide MatchesPlan;
    var i :| 0 <= i < |ms| && MatchesPlan(ms[i], ev.expected[k]);
    MatchKeeps(ms[i], ev.expected[k]);
  }

  lemma PlannedTarget(ev: Evidence, m: Mapping, planned: map<Path, Entry>)
    requires PlannedMapping(ev, m) && Indexes(planned, ev.expected)
    ensures m.target in planned
  {
    hide MatchesPlan;
    var i :| 0 <= i < |ev.expected| && MatchesPlan(m, ev.expected[i]);
    MatchKeeps(m, ev.expected[i]);
  }

  lemma ComparedAll(ev: Evidence, ms: seq<Mapping>, byTarget: map<Path, Mapping>, references: set<Path>, planned: map<Path, Entry>)
    requires Indexes(planned, ev.expected) && IndexesMappings(byTarget, ms)
    requires forall t :: t in references <==> t in byTarget && byTarget[t].ReferenceMapping?
    requires planned.Keys == byTarget.Keys - references
    requires forall i :: 0 <= i < |ev.expected| ==>
      byTarget[ev.expected[i].target] in ms && MatchesPlan(byTarget[ev.expected[i].target], ev.expected[i])
    ensures Follows(ev, ms)
  {
    hide MatchesPlan;
    forall k | 0 <= k < |ms| && !ms[k].ReferenceMapping? ensures PlannedMapping(ev, ms[k]) {
      assert ms[k].target in planned.Keys;
      var i: nat :| i < |ev.expected| && ev.expected[i].target == ms[k].target;
      assert MatchesPlan(ms[k], ev.expected[i]);
    }
    forall i | 0 <= i < |ev.expected| ensures MappedHere(ms, ev.expected[i]) {
      var k :| 0 <= k < |ms| && ms[k] == byTarget[ev.expected[i].target];
      assert MatchesPlan(ms[k], ev.expected[i]);
    }
  }

  /** `direct_rows != {coordinates["row"]}`. */
  method SameRowSet(rows: set<Json>, row: Json) returns (same: bool)
    ensures same <==> OnlyRow(rows, row)
  {
    return rows != {} && forall r :: r in rows ==> PyEq(r, row);
  }

  /** Every locator against its row and its anchor. */
  method CheckLocators(ev: Evidence, ms: seq<Mapping>, byTarget: map<Path, Mapping>, rows: map<Path, set<Json>>,
                       derived: seq<Path>, ghost references: set<Path>)
    returns (ok: bool)
    requires Collected(ev, ms, byTarget, rows, derived, references)
    ensures ok <==> forall k :: 0 <= k < |ms| && ms[k].LocatorMapping? ==> AnchoredMapping(ms, ms[k])
  {
    hide SubmittedOk, RowsBeside, RowsAt, RowPrefix, AnchorTarget, AnchorsMapping, DistinctMappings, OnlyRow;
    var i := 0;
    while i < |derived|
      invariant 0 <= i <= |derived|
      invariant forall j :: 0 <= j < i ==> AnchoredMapping(ms, byTarget[derived[j]])
    {
      assert derived[i] in byTarget;
      var m := byTarget[derived[i]];
      ghost var at: nat :| at < |ms| && ms[at].target == derived[i];
      assert ms[at] == m;
      var anchorTarget := AnchorTarget(m.target);
      assert RowsAt(rows, RowPrefix(m.target)) == RowsBeside(ms, RowPrefix(m.target));
      AnchorLookup(ms, byTarget, m);
      var sameRow := SameRowSet(RowsAt(rows, RowPrefix(m.target)), m.source.row);
      if !sameRow || anchorTarget !in byTarget || !AnchorsMapping(m, byTarget[anchorTarget])
        || m.anchor != anchorTarget || m.value != Str(m.source.locator)
      {
        assert !AnchoredMapping(ms, m);
        return false;
      }
      i := i + 1;
    }
    forall k | 0 <= k < |ms| && ms[k].LocatorMapping? ensures AnchoredMapping(ms, ms[k]) {
      assert ms[k].target in derived;
      var j :| 0 <= j < |derived| && derived[j] == ms[k].target;
      assert byTarget[derived[j]] == ms[k];
    }
    return true;
  }

  lemma AnchorLookup(ms: seq<Mapping>, byTarget: map<Path, Mapping>, m: Mapping)
    requires IndexesMappings(byTarget, ms) && m.LocatorMapping?
    ensures (exists k :: 0 <= k < |ms| && AnchorsMapping(m, ms[k])) <==>
      AnchorTarget(m.target) in byTarget && AnchorsMapping(m, byTarget[AnchorTarget(m.target)])
  {
    hide RefEq;
    if AnchorTarget(m.target) in byTarget {
      var k: nat :| k < |ms| && ms[k].target == AnchorTarget(m.target);
      assert byTarget[AnchorTarget(m.target)] == ms[k];
    }
  }

  /** `_validate_mapping_closure`: accepts exactly the admitted lists and returns them in target order. */
  method ValidateMappingClosure(ev: Evidence, ms: seq<Mapping>) returns (r: Option<seq<Mapping>>)
    ensures r.Some? <==> Admitted(ev, ms)
    ensures r.Some? ==> r.value == Sort(ms, ByKey(MappingKey))
  {
    hide CellsOk, PlanOk, Follows, SubmittedOk, AnchoredMapping, RowsBeside, MappingKey;
    if ms == [] || |ms| > MAX_ARTIFACT_MAPPINGS {
      return None;
    }
    var known := IndexParserCells(ev);
    if known.None? {
      return None;
    }
    var planned := IndexPlan(ev, known.value);
    if planned.None? {
      return None;
    }
    var ok, byTarget, rows, derived, references := IndexMappings(ev, ms);
    if !ok {
      return None;
    }
    assert byTarget.Keys == MappingTargets(ms);
    var follows := ComparePlan(ev, ms, byTarget, references, planned.value);
    if !follows {
      return None;
    }
    var anchored := CheckLocators(ev, ms, byTarget, rows, derived, references);
    if !anchored {
      return None;
    }
    if ScalarLeaves(ev.document.fields, [Key("fields")]) != byTarget.Keys {
      return None;
    }
    return Some(Sort(ms, ByKey(MappingKey)));
  }

  // ---------- Read back with integer coordinates ----------

  /** A number equal to an integer: an integer, a boolean or a float without fraction. */
  predicate WholeNumber(j: Json) {
    IsNumber(j) && NumberOf(j) == NumberOf(j).Floor as real
  }

  function IntOf(j: Json): int {
    if IsNumber(j) then NumberOf(j).Floor else 0
  }

  lemma WholeEq(j: Json, i: int)
    ensures PyEq(j, Int(i)) <==> WholeNumber(j) && IntOf(j) == i
  {}

  lemma WholeAgree(a: Json, b: Json)
    requires WholeNumber(a) && WholeNumber(b)
    ensures PyEq(a, b) <==> IntOf(a) == IntOf(b)
  {}

  function TypedRef(s: CellRef): Source {
    Source(s.sourceId, s.documentId, s.sourceHash, s.locator, s.kind, IntOf(s.row), IntOf(s.column), s.header, s.rawValue)
  }

  function TypedRefs(refs: seq<CellRef>): (r: seq<Source>)
    ensures |r| == |refs| && forall k :: 0 <= k < |r| ==> r[k] == TypedRef(refs[k])
  {
    Mapped(TypedRef, refs)
  }

  function Typed(m: Mapping): Entry {
    match m
    case DirectMapping(t, v, source, c) => Direct(t, v, TypedRef(source), c)
    case AggregateMapping(t, v, sources, a, c) => Aggregate(t, v, TypedRefs(sources), a, c)
    case LocatorMapping(t, v, source, anchor, d) => DerivedLocator(t, v, TypedRef(source), anchor, d)
    case ReferenceMapping(t, v, role, id, revision, hash, d) => ReferenceIdentity(t, v, role, id, revision, hash, d)
  }

  function TypedAll(ms: seq<Mapping>): (r: seq<Entry>)
    ensures |r| == |ms| && forall k :: 0 <= k < |r| ==> r[k] == Typed(ms[k])
  {
    Mapped(Typed, ms)
  }

  predicate WholeRef(s: CellRef) {
    WholeNumber(s.row) && WholeNumber(s.column)
  }

  /** Cells lie at numbers equal to integers, locators at integers. */
  predicate Whole(m: Mapping) {
    && (IsCell(m) ==> forall j :: 0 <= j < |RefsOf(m)| ==> WholeRef(RefsOf(m)[j]))
    && (m.LocatorMapping? ==> m.source.row.Int? && m.source.column.Int?)
  }

  ghost predicate AllWhole(ms: seq<Mapping>) {
    forall k :: 0 <= k < |ms| ==> Whole(ms[k])
  }

  lemma RefWritten(s: CellRef, t: Source)
    ensures RefEq(s, WrittenRef(t)) <==> WholeRef(s) && TypedRef(s) == t
  {
    WholeEq(s.row, t.row);
    WholeEq(s.column, t.column);
  }

  lemma RefsWritten(refs: seq<CellRef>, sources: seq<Source>)
    ensures RefsEq(refs, WrittenRefs(sources)) <==> (forall j :: 0 <= j < |refs| ==> WholeRef(refs[j])) && TypedRefs(refs) == sources
  {
    hide RefEq, WholeRef, WrittenRef, TypedRef;
    if |refs| == |sources| {
      forall j | 0 <= j < |refs| ensures RefEq(refs[j], WrittenRefs(sources)[j]) <==> WholeRef(refs[j]) && TypedRefs(refs)[j] == sources[j] {
        RefWritten(refs[j], sources[j]);
      }
    }
  }

  lemma MatchIff(m: Mapping, e: Entry)
    requires m.LocatorMapping? ==> Whole(m)
    ensures MatchesPlan(m, e) <==> Whole(m) && EntryEq(Typed(m), e)
  {
    hide RefEq, WholeRef, WrittenRef, TypedRef, RefsEq;
    match m
    case DirectMapping(_, _, source, _) =>
      assert RefsOf(m)[0] == source;
      if e.Direct? { RefWritten(source, e.source); }
    case AggregateMapping(_, _, sources, _, _) =>
      assert RefsOf(m) == sources;
      assert Whole(m) <==> forall j :: 0 <= j < |sources| ==> WholeRef(sources[j]);
      if e.Aggregate? { RefsWritten(sources, e.sources); }
    case LocatorMapping(_, _, source, _, _) =>
      if e.DerivedLocator? { RefWritten(source, e.source); LocatorWhole(source); }
    case ReferenceMapping(_, _, _, _, _, _, _) =>
  }

  lemma LocatorWhole(s: CellRef)
    requires s.row.Int? && s.column.Int?
    ensures WholeRef(s)
  {}

  lemma TypedParts(m: Mapping)
    ensures Typed(m).target == m.target && Typed(m).value == m.value && EntrySources(Typed(m)) == TypedRefs(RefsOf(m))
    ensures (IsCell(m) <==> IsCellEntry(Typed(m))) && (m.LocatorMapping? <==> Typed(m).DerivedLocator?)
    ensures (m.ReferenceMapping? <==> Typed(m).ReferenceIdentity?) && (m.DirectMapping? <==> Typed(m).Direct?)
  {
    assert m.DirectMapping? || m.LocatorMapping? ==> TypedRefs(RefsOf(m)) == [TypedRef(m.source)];
    assert m.ReferenceMapping? ==> TypedRefs(RefsOf(m)) == [];
  }

  lemma RefFitsTyped(ev: Evidence, s: CellRef)
    ensures RefFits(ev, s) <==> SourceFits(ev, TypedRef(s))
  {}

  lemma OkIff(ev: Evidence, m: Mapping)
    requires Whole(m)
    ensures SubmittedOk(ev, m) <==> MappingOk(ev, Typed(m))
  {
    TypedParts(m);
    hide RefFits, SourceFits, PyEq, ValueAt, IsLocator, Backed;
    forall j | 0 <= j < |RefsOf(m)| ensures RefFits(ev, RefsOf(m)[j]) <==> SourceFits(ev, EntrySources(Typed(m))[j]) {
      RefFitsTyped(ev, RefsOf(m)[j]);
    }
    if m.LocatorMapping? {
      RefFitsTyped(ev, m.source);
      IntRef(m.source);
    }
  }

  lemma IntRef(s: CellRef)
    requires s.row.Int? && s.column.Int?
    ensures TypedRef(s).row == s.row.i && TypedRef(s).column == s.column.i
  {}

  lemma RowsTyped(ms: seq<Mapping>, p: Path)
    requires AllWhole(ms)
    ensures forall r :: r in RowsBeside(ms, p) ==> WholeNumber(r) && IntOf(r) in DirectRows(TypedAll(ms), p)
    ensures forall n :: n in DirectRows(TypedAll(ms), p) ==> exists r :: r in RowsBeside(ms, p) && IntOf(r) == n
  {
    var es := TypedAll(ms);
    hide RefsOf, EntrySources, IsCell, IsCellEntry, RowPrefix, WholeNumber, IntOf, Typed;
    forall r | r in RowsBeside(ms, p) ensures WholeNumber(r) && IntOf(r) in DirectRows(es, p) {
      var k: nat, j: nat :| k < |ms| && j < |RefsOf(ms[k])| && IsCell(ms[k]) && RowPrefix(ms[k].target) == p && RefsOf(ms[k])[j].row == r;
      TypedParts(ms[k]);
      assert Whole(ms[k]) && WholeRef(RefsOf(ms[k])[j]);
      assert EntrySources(es[k])[j].row == IntOf(r);
    }
    forall n | n in DirectRows(es, p) ensures exists r :: r in RowsBeside(ms, p) && IntOf(r) == n {
      var k: nat, j: nat :| k < |es| && j < |EntrySources(es[k])| && IsCellEntry(es[k]) && RowPrefix(es[k].target) == p && EntrySources(es[k])[j].row == n;
      TypedParts(ms[k]);
      assert RefsOf(ms[k])[j].row in RowsBeside(ms, p);
      assert IntOf(RefsOf(ms[k])[j].row) == n;
    }
  }

  lemma OnlyRowSets(rows: set<Json>, typed: set<int>, row: Json)
    requires WholeNumber(row) && forall r :: r in rows ==> WholeNumber(r) && IntOf(r) in typed
    requires forall n :: n in typed ==> exists r :: r in rows && IntOf(r) == n
    ensures OnlyRow(rows, row) <==> typed == {IntOf(row)}
  {
    hide WholeNumber, IntOf, PyEq;
    forall r | r in rows ensures PyEq(r, row) <==> IntOf(r) == IntOf(row) {
      WholeAgree(r, row);
    }
    if OnlyRow(rows, row) {
      var r :| r in rows;
      assert IntOf(r) in typed;
      forall n | n in typed ensures n == IntOf(row) {
        var x :| x in rows && IntOf(x) == n;
      }
    }
    if typed == {IntOf(row)} {
      assert IntOf(row) in typed;
    }
  }

  lemma OnlyRowTyped(ms: seq<Mapping>, p: Path, row: Json)
    requires AllWhole(ms) && WholeNumber(row)
    ensures OnlyRow(RowsBeside(ms, p), row) <==> DirectRows(TypedAll(ms), p) == {IntOf(row)}
  {
    RowsTyped(ms, p);
    hide RowsBeside, DirectRows, WholeNumber, IntOf, OnlyRow, AllWhole, TypedAll;
    OnlyRowSets(RowsBeside(ms, p), DirectRows(TypedAll(ms), p), row);
  }

  lemma AnchorsTyped(m: Mapping, a: Mapping)
    requires m.LocatorMapping? && Whole(m) && Whole(a)
    ensures AnchorsMapping(m, a) <==> Anchors(Typed(m), Typed(a))
  {
    TypedParts(a);
    hide AnchorTarget;
    if a.DirectMapping? {
      assert RefsOf(a)[0] == a.source;
      WholeAgree(a.source.row, m.source.row);
      WholeAgree(a.source.column, m.source.column);
    }
  }

  lemma AnchoredTyped(ms: seq<Mapping>, m: Mapping)
    requires AllWhole(ms) && m in ms && m.LocatorMapping?
    ensures AnchoredMapping(ms, m) <==> Anchored(TypedAll(ms), Typed(m))
  {
    var es := TypedAll(ms);
    assert Whole(m);
    OnlyRowTyped(ms, RowPrefix(m.target), m.source.row);
    hide RowsBeside, DirectRows, AnchorTarget, RowPrefix, AnchorsMapping, Anchors, OnlyRow;
    IntRef(m.source);
    forall k | 0 <= k < |ms| ensures AnchorsMapping(m, ms[k]) <==> Anchors(Typed(m), es[k]) {
      assert Whole(ms[k]);
      AnchorsTyped(m, ms[k]);
    }
  }

  lemma FollowsTyped(ev: Evidence, ms: seq<Mapping>)
    requires AllWhole(ms)
    ensures Follows(ev, ms) <==> FollowsPlan(ev, TypedAll(ms))
  {
    var es := TypedAll(ms);
    hide MatchesPlan, EntryEq, Typed, Whole;
    forall k, i | 0 <= k < |ms| && 0 <= i < |ev.expected| ensures MatchesPlan(ms[k], ev.expected[i]) <==> EntryEq(es[k], ev.expected[i]) {
      assert Whole(ms[k]);
      MatchIff(ms[k], ev.expected[i]);
    }
    forall k | 0 <= k < |ms|
      ensures ms[k].ReferenceMapping? <==> es[k].ReferenceIdentity?
      ensures PlannedMapping(ev, ms[k]) <==> PlannedFor(ev, es[k])
    {
      TypedParts(ms[k]);
    }
    forall i | 0 <= i < |ev.expected| ensures MappedHere(ms, ev.expected[i]) <==> MappedAs(es, ev.expected[i]) {}
  }

  /** An entry that passes its own checks and follows the plan lies at whole coordinates. */
  lemma PlannedWhole(ev: Evidence, m: Mapping)
    requires SubmittedOk(ev, m) && (m.ReferenceMapping? || PlannedMapping(ev, m))
    ensures Whole(m)
  {
    hide MatchesPlan, RefFits, PyEq, ValueAt, IsLocator;
    if IsCell(m) {
      var i :| 0 <= i < |ev.expected| && MatchesPlan(m, ev.expected[i]);
      MatchIff(m, ev.expected[i]);
    }
  }

  /** The admitted lists are those that lie at whole coordinates and, read back with integers, are closed. */
  lemma AdmittedIff(ev: Evidence, ms: seq<Mapping>)
    ensures Admitted(ev, ms) <==> AllWhole(ms) && Closed(ev, TypedAll(ms))
  {
    hide SubmittedOk, MappingOk, CellsOk, PlanOk, Whole, AnchoredMapping, Anchored, Typed, PlannedMapping, MappedHere, PlannedFor, MappedAs;
    if Admitted(ev, ms) {
      forall k | 0 <= k < |ms| ensures Whole(ms[k]) {
        PlannedWhole(ev, ms[k]);
      }
    }
    if AllWhole(ms) {
      WholeIff(ev, ms);
    }
  }

  lemma WholeIff(ev: Evidence, ms: seq<Mapping>)
    requires AllWhole(ms)
    ensures Admitted(ev, ms) <==> Closed(ev, TypedAll(ms))
  {
    var es := TypedAll(ms);
    FollowsTyped(ev, ms);
    hide SubmittedOk, MappingOk, CellsOk, PlanOk, Whole, AnchoredMapping, Anchored, Typed, Follows, FollowsPlan, ScalarLeaves;
    forall k | 0 <= k < |ms|
      ensures es[k].target == ms[k].target && (ms[k].LocatorMapping? <==> es[k].DerivedLocator?)
      ensures SubmittedOk(ev, ms[k]) <==> MappingOk(ev, es[k])
      ensures ms[k].LocatorMapping? && es[k].DerivedLocator? ==> (AnchoredMapping(ms, ms[k]) <==> Anchored(es, es[k]))
    {
      TypedParts(ms[k]);
      assert Whole(ms[k]);
      OkIff(ev, ms[k]);
      if ms[k].LocatorMapping? {
        AnchoredTyped(ms, ms[k]);
      }
    }
    TargetsTyped(ms);
  }

  lemma TargetsTyped(ms: seq<Mapping>)
    requires forall k :: 0 <= k < |ms| ==> TypedAll(ms)[k].target == ms[k].target
    ensures MappingTargets(ms) == Targets(TypedAll(ms)) && (DistinctMappings(ms) <==> DistinctTargets(TypedAll(ms)))
  {
    var es := TypedAll(ms);
    hide Typed;
    forall t ensures t in MappingTargets(ms) <==> t in Targets(es) {
      if t in MappingTargets(ms) {
        var k: nat :| k < |ms| && ms[k].target == t;
        assert es[k].target == t;
      }
      if t in Targets(es) {
        var k: nat :| k < |es| && es[k].target == t;
        assert ms[k].target == t;
      }
    }
  }

  // ---------- Lists written with integers ----------

  lemma WrittenTyped(e: Entry)
    ensures Typed(Written(e)) == e && Whole(Written(e))
  {
    if e.Aggregate? {
      assert TypedRefs(WrittenRefs(e.sources)) == e.sources;
    }
  }

  /** Of a list written with integers the check demands that it is closed. */
  lemma WrittenIff(ev: Evidence, entries: seq<Entry>)
    ensures Admitted(ev, WrittenAll(entries)) <==> Closed(ev, entries)
  {
    AdmittedIff(ev, WrittenAll(entries));
    hide Admitted, Closed, Typed, Written, Whole;
    forall k | 0 <= k < |entries| ensures TypedAll(WrittenAll(entries))[k] == entries[k] && Whole(WrittenAll(entries)[k]) {
      WrittenTyped(entries[k]);
    }
    assert TypedAll(WrittenAll(entries)) == entries;
  }

  lemma WrittenSorted(entries: seq<Entry>)
    ensures Sort(WrittenAll(entries), ByKey(MappingKey)) == WrittenAll(Sort(entries, ByKey(EntryKey)))
  {
    forall e ensures MappingKey(Written(e)) == EntryKey(e) {
      assert Written(e).target == e.target;
    }
    SortMapped(Written, entries, ByKey(EntryKey), ByKey(MappingKey));
  }

  // ---------- Values and coordinates that only Python calls equal ----------

  /** The same list with some cell entries exchanged for entries Python calls equal. */
  ghost predicate EqualMappings(a: seq<Mapping>, b: seq<Mapping>) {
    |a| == |b| && forall k :: 0 <= k < |a| ==> a[k] == b[k] || (IsCell(a[k]) && MappingEq(b[k], a[k]))
  }

  lemma RefEqWhole(s: CellRef, t: CellRef)
    requires RefEq(s, t) && WholeRef(t)
    ensures WholeRef(s) && TypedRef(s) == TypedRef(t)
  {}

  lemma EqualTyped(m: Mapping, n: Mapping)
    requires IsCell(n) && MappingEq(m, n) && Whole(n)
    ensures IsCell(m) && Whole(m) && EntryEq(Typed(m), Typed(n)) && IsCellEntry(Typed(n))
  {
    hide RefEq, WholeRef, TypedRef;
    match n
    case DirectMapping(_, _, source, _) =>
      assert RefsOf(n)[0] == source && RefsOf(m)[0] == m.source;
      RefEqWhole(m.source, source);
    case AggregateMapping(_, _, sources, _, _) =>
      forall j | 0 <= j < |sources| ensures WholeRef(m.sources[j]) && TypedRef(m.sources[j]) == TypedRef(sources[j]) {
        assert RefsOf(n)[j] == sources[j];
        RefEqWhole(m.sources[j], sources[j]);
      }
      assert TypedRefs(m.sources) == TypedRefs(sources);
  }

  /** Accepted entries may be exchanged for entries Python calls equal, coordinates included: `True`, `1` and `1.0`
      pass for one another, so acceptance fixes neither the values' types nor the coordinates'. */
  lemma EqualEntriesInterchange(ev: Evidence, a: seq<Mapping>, b: seq<Mapping>)
    requires Admitted(ev, a) && EqualMappings(a, b)
    ensures Admitted(ev, b)
  {
    AdmittedIff(ev, a);
    AdmittedIff(ev, b);
    hide Admitted, Closed, Typed, Whole, MappingEq, EntryEq, IsCell, IsCellEntry;
    var x, y := TypedAll(a), TypedAll(b);
    forall k | 0 <= k < |b| ensures Whole(b[k]) && (x[k] == y[k] || (IsCellEntry(x[k]) && EntryEq(y[k], x[k]))) {
      assert Whole(a[k]);
      if a[k] != b[k] {
        EqualTyped(b[k], a[k]);
      }
    }
    EqualValuesInterchange(ev, x, y);
  }

  // ---------- Coordinates are never pinned ----------

  /** A closed list has an entry for a cell. */
  lemma SomeCell(ev: Evidence, entries: seq<Entry>) returns (k: nat)
    requires Closed(ev, entries)
    ensures k < |entries| && IsCellEntry(entries[k]) && EntrySources(entries[k]) != []
  {
    hide MappingOk, EntryEq, AnchorTarget, RowPrefix, DirectRows;
    assert ev.cells[0].source in CellSources(ev.cells);
    var i: nat, j: nat :| i < |ev.expected| && j < |EntrySources(ev.expected[i])| && EntrySources(ev.expected[i])[j] == ev.cells[0].source;
    assert MappedAs(entries, ev.expected[i]) && RoleOk(CellSources(ev.cells), ev.expected[i]);
    var at: nat :| at < |entries| && EntryEq(entries[at], ev.expected[i]);
    EntryEqKeeps(entries[at], ev.expected[i]);
    k := at;
    if entries[at].DerivedLocator? {
      assert Anchored(entries, entries[at]);
      k :| k < |entries| && Anchors(entries[at], entries[k]);
    }
  }

  /** The row number as a float. */
  function RealRow(s: CellRef): CellRef {
    if IsNumber(s.row) then s.(row := Real(NumberOf(s.row))) else s
  }

  /** The first cell's row as a float. */
  function WithRealRow(m: Mapping): Mapping {
    match m
    case DirectMapping(t, v, source, c) => DirectMapping(t, v, RealRow(source), c)
    case AggregateMapping(t, v, sources, a, c) =>
      if sources == [] then m else AggregateMapping(t, v, sources[0 := RealRow(sources[0])], a, c)
    case _ => m
  }

  lemma RealRowEqual(s: CellRef)
    ensures RefEq(RealRow(s), s)
  {
    PyEqReflexive(s.row);
    PyEqReflexive(s.column);
  }

  lemma WithRealRowEqual(m: Mapping)
    ensures MappingEq(WithRealRow(m), m)
  {
    PyEqReflexive(m.value);
    hide PyEq, RealRow, RefEq;
    forall s: CellRef ensures RefEq(RealRow(s), s) && RefEq(s, s) {
      RealRowEqual(s);
      RefEqReflexive(s);
    }
  }

  lemma RefEqReflexive(s: CellRef)
    ensures RefEq(s, s)
  {
    PyEqReflexive(s.row);
    PyEqReflexive(s.column);
  }

  lemma NotWritten(e: Entry, other: Entry)
    requires IsCellEntry(e) && EntrySources(e) != []
    ensures WithRealRow(Written(e)) != Written(other)
  {
    match e
    case Direct(_, _, source, _) =>
      assert WithRealRow(Written(e)).source.row.Real?;
    case Aggregate(_, _, sources, _, _) =>
      assert WrittenRefs(sources)[0] == WrittenRef(sources[0]);
      assert WithRealRow(Written(e)).sources[0].row.Real?;
      assert other.Aggregate? && other.sources != [] ==> WrittenRefs(other.sources)[0].row.Int?;
  }

  /** No document's accepted list is pinned: some cell's row may be a float, and then no list the builder writes is
      the accepted one. */
  lemma NeverPinned(ev: Evidence, entries: seq<Entry>) returns (ms: seq<Mapping>, k: nat)
    requires Closed(ev, entries)
    ensures k < |entries| && IsCellEntry(entries[k]) && EntrySources(entries[k]) != []
    ensures ms == WrittenAll(entries)[k := WithRealRow(Written(entries[k]))]
    ensures Admitted(ev, ms) && forall other :: ms != WrittenAll(other)
  {
    k := SomeCell(ev, entries);
    hide Closed, Admitted, MappingEq, WithRealRow, Written, IsCellEntry, EntrySources;
    var before := WrittenAll(entries);
    ms := before[k := WithRealRow(Written(entries[k]))];
    WrittenIff(ev, entries);
    WithRealRowEqual(Written(entries[k]));
    CellWritten(entries[k]);
    EqualEntriesInterchange(ev, before, ms);
    forall other ensures ms != WrittenAll(other) {
      if |other| == |ms| {
        NotWritten(entries[k], other[k]);
        assert WrittenAll(other)[k] != ms[k];
      }
    }
  }

  lemma CellWritten(e: Entry)
    ensures IsCell(Written(e)) <==> IsCellEntry(e)
  {}
}

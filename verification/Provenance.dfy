/** The two records of which parser cell feeds which field leaf: the builder's provenance list and the
    independently kept evidence plan. */
module Provenance {
  import opened Json
  import opened Ordering

  const CONVERSION_CONTRACT := "qualityci-mapping-value-conversion-0.1"
  const AGGREGATION_CONTRACT := "qualityci-identical-value-aggregate-0.1"
  const LOCATOR_CONTRACT := "qualityci-derived-locator-0.1"
  const REFERENCE_CONTRACT := "qualityci-derived-reference-identity-0.1"

  /** One parser cell as an evidence source; `header` is the source column text. */
  datatype Source = Source(
    sourceId: string, documentId: string, sourceHash: string, locator: string, kind: string,
    row: int, column: int, header: string, rawValue: string)

  datatype Entry =
    | Direct(target: Path, value: Json, source: Source, conversion: string)
    | Aggregate(target: Path, value: Json, sources: seq<Source>, aggregation: string, conversion: string)
    | DerivedLocator(target: Path, value: Json, source: Source, anchor: Path, derivation: string)
    | ReferenceIdentity(target: Path, value: Json, role: string, targetDocumentId: string,
                        targetRevision: string, targetSourceHash: string, derivation: string)

  /** One cell contributing one value to one target. */
  datatype Feed = Feed(target: Path, value: Json, source: Source)

  function DirectEntry(f: Feed): Entry {
    Direct(f.target, f.value, f.source, CONVERSION_CONTRACT)
  }

  // ---------- Meaning: contributions grouped by target ----------

  function Contributors(feeds: seq<Feed>, t: Path): seq<Feed> {
    if feeds == [] then []
    else
      var n := |feeds| - 1;
      Contributors(feeds[..n], t) + (if feeds[n].target == t then [feeds[n]] else [])
  }

  lemma {:induction false} ContributorsMembers(feeds: seq<Feed>, t: Path)
    ensures forall f :: f in Contributors(feeds, t) <==> f in feeds && f.target == t
  {
    if feeds != [] {
      var n := |feeds| - 1;
      ContributorsMembers(feeds[..n], t);
      assert feeds == feeds[..n] + [feeds[n]];
    }
  }

  function SourcesOf(feeds: seq<Feed>): (r: seq<Source>)
    ensures |r| == |feeds| && forall k :: 0 <= k < |r| ==> r[k] == feeds[k].source
  {
    seq(|feeds|, k requires 0 <= k < |feeds| => feeds[k].source)
  }

  lemma ContributorsStep(feeds: seq<Feed>, f: Feed, t: Path)
    ensures Contributors(feeds + [f], t) == Contributors(feeds, t) + (if f.target == t then [f] else [])
  {
    assert (feeds + [f])[..|feeds|] == feeds;
  }

  lemma {:induction false} NoTarget(feeds: seq<Feed>, t: Path)
    requires forall f :: f in feeds ==> f.target != t
    ensures Contributors(feeds, t) == []
  {
    if feeds != [] {
      NoTarget(feeds[..|feeds| - 1], t);
      assert feeds[|feeds| - 1] in feeds;
    }
  }

  lemma {:induction false} ContributorsConcat(a: seq<Feed>, b: seq<Feed>, t: Path)
    ensures Contributors(a + b, t) == Contributors(a, t) + Contributors(b, t)
  {
    NoTarget([], t);
    hide Contributors;
    if b == [] {
      assert a + b == a;
    } else {
      var n := |b| - 1;
      ContributorsConcat(a, b[..n], t);
      ContributorsStep(a + b[..n], b[n], t);
      ContributorsStep(b[..n], b[n], t);
      assert a + b == (a + b[..n]) + [b[n]] && b[..n] + [b[n]] == b;
    }
  }

  /** The one entry a nonempty group of contributions to a target amounts to. */
  function GroupEntry(group: seq<Feed>): Entry
    requires group != []
  {
    if |group| == 1 then DirectEntry(group[0])
    else Aggregate(group[0].target, group[0].value, SourcesOf(group), AGGREGATION_CONTRACT, CONVERSION_CONTRACT)
  }

  predicate SourceLe(a: Source, b: Source) {
    a.row < b.row || (a.row == b.row && (a.column < b.column || (a.column == b.column && TextLe(a.locator, b.locator))))
  }

  function Finalized(e: Entry): Entry {
    if e.Aggregate? then e.(sources := Sort(e.sources, SourceLe)) else e
  }

  lemma FinalizedKeepsSources(e: Entry)
    requires e.Aggregate?
    ensures Finalized(e).Aggregate? && forall s :: s in Finalized(e).sources <==> s in e.sources
  {
    assert forall s :: s in Finalized(e).sources <==> s in multiset(Finalized(e).sources);
    assert forall s :: s in e.sources <==> s in multiset(e.sources);
  }

  ghost predicate DistinctTargets(entries: seq<Entry>) {
    forall i, j :: 0 <= i < j < |entries| ==> entries[i].target != entries[j].target
  }

  /** The entry for `t`, if any, is the group of the contributions to `t`. */
  ghost predicate GroupAt(entries: seq<Entry>, feeds: seq<Feed>, t: Path) {
    match IndexOf(entries, t)
    case None => Contributors(feeds, t) == []
    case Some(k) => Contributors(feeds, t) != [] && entries[k] == GroupEntry(Contributors(feeds, t))
  }

  /** The list holds one entry per target fed so far: the group of that target's contributions. */
  ghost predicate Groups(entries: seq<Entry>, feeds: seq<Feed>) {
    DistinctTargets(entries) && forall t :: GroupAt(entries, feeds, t)
  }

  // ---------- The builder's list ----------

  function IndexOf(entries: seq<Entry>, t: Path): (r: Option<nat>)
    ensures r.Some? ==> r.value < |entries| && entries[r.value].target == t
    ensures r.None? ==> forall k :: 0 <= k < |entries| ==> entries[k].target != t
  {
    if entries == [] then None
    else if entries[|entries| - 1].target == t then Some(|entries| - 1)
    else IndexOf(entries[..|entries| - 1], t)
  }

  /** The exact test `append` makes before it merges: the repeated-cell test is skipped while the
      existing entry is still a single cell. */
  ghost predicate Merges(existing: Entry, e: Entry) {
    && e.Direct?
    && PyEq(existing.value, e.value)
    && (existing.Direct? || (existing.Aggregate? && e.source !in existing.sources))
  }

  function Merged(existing: Entry, e: Entry): Entry
    requires e.Direct? && (existing.Direct? || existing.Aggregate?)
  {
    if existing.Direct? then
      Aggregate(existing.target, existing.value, [existing.source, e.source], AGGREGATION_CONTRACT, CONVERSION_CONTRACT)
    else existing.(sources := existing.sources + [e.source])
  }

  ghost function Appended(entries: seq<Entry>, e: Entry): Option<seq<Entry>> {
    match IndexOf(entries, e.target)
    case None => Some(entries + [e])
    case Some(k) => if Merges(entries[k], e) then Some(entries[k := Merged(entries[k], e)]) else None
  }

  /** When one more contribution is accepted by the builder's list. */
  ghost predicate ListAccepts(feeds: seq<Feed>, f: Feed) {
    var group := Contributors(feeds, f.target);
    group == [] || (PyEq(group[0].value, f.value) && (|group| == 1 || f.source !in SourcesOf(group)))
  }

  /** When one more contribution is accepted by the evidence plan. */
  ghost predicate PlanAccepts(feeds: seq<Feed>, f: Feed) {
    var group := Contributors(feeds, f.target);
    group == [] || (group[0].value == f.value && f.source !in SourcesOf(group))
  }

  /** No earlier contribution to the same target has another value or the same cell. */
  ghost predicate Joins(feeds: seq<Feed>, f: Feed) {
    forall g :: g in feeds && g.target == f.target ==> g.value == f.value && g.source != f.source
  }

  lemma JoinsIsAccepted(feeds: seq<Feed>, f: Feed)
    requires Joins(feeds, f)
    ensures ListAccepts(feeds, f) && PlanAccepts(feeds, f)
  {
    var group := Contributors(feeds, f.target);
    ContributorsMembers(feeds, f.target);
    if group != [] {
      assert group[0] in group;
      PyEqReflexive(f.value);
      forall s | s in SourcesOf(group) ensures s != f.source {
        var k :| 0 <= k < |group| && group[k].source == s;
        assert group[k] in group;
      }
    }
  }

  lemma IndexOfMember(entries: seq<Entry>, k: nat)
    requires DistinctTargets(entries) && k < |entries|
    ensures IndexOf(entries, entries[k].target) == Some(k)
  {
    var r := IndexOf(entries, entries[k].target);
    assert r.Some?;
  }

  lemma Unlisted(entries: seq<Entry>, t: Path)
    requires forall k :: 0 <= k < |entries| ==> entries[k].target != t
    ensures IndexOf(entries, t).None?
  {}

  lemma IndexOfAppend(entries: seq<Entry>, e: Entry, t: Path)
    ensures IndexOf(entries + [e], t) == if e.target == t then Some(|entries|) else IndexOf(entries, t)
  {
    assert (entries + [e])[..|entries|] == entries;
  }

  lemma {:induction false} IndexOfUpdate(entries: seq<Entry>, k: nat, e: Entry, t: Path)
    requires k < |entries| && entries[k].target == e.target
    ensures IndexOf(entries[k := e], t) == IndexOf(entries, t)
  {
    var n := |entries| - 1;
    if k < n {
      IndexOfUpdate(entries[..n], k, e, t);
      assert entries[k := e][..n] == entries[..n][k := e];
    } else {
      assert entries[k := e][..n] == entries[..n];
    }
  }

  lemma GroupTarget(feeds: seq<Feed>, t: Path)
    requires Contributors(feeds, t) != []
    ensures GroupEntry(Contributors(feeds, t)).target == t
  {
    ContributorsMembers(feeds, t);
    assert Contributors(feeds, t)[0] in Contributors(feeds, t);
  }

  lemma AppendNewRegroups(entries: seq<Entry>, feeds: seq<Feed>, f: Feed)
    requires Groups(entries, feeds) && IndexOf(entries, f.target).None?
    ensures Groups(entries + [DirectEntry(f)], feeds + [f])
  {
    var after := entries + [DirectEntry(f)];
    assert GroupAt(entries, feeds, f.target);
    forall t ensures GroupAt(after, feeds + [f], t) {
      assert GroupAt(entries, feeds, t);
      IndexOfAppend(entries, DirectEntry(f), t);
      ContributorsStep(feeds, f, t);
    }
  }

  lemma MergedGroup(group: seq<Feed>, f: Feed)
    requires group != [] && group[0].target == f.target
    ensures Merged(GroupEntry(group), DirectEntry(f)) == GroupEntry(group + [f])
  {
    assert SourcesOf(group + [f]) == SourcesOf(group) + [f.source];
    if |group| == 1 {
      assert SourcesOf(group + [f]) == [group[0].source, f.source];
    }
  }

  lemma AppendMergeRegroups(entries: seq<Entry>, feeds: seq<Feed>, f: Feed, k: nat)
    requires Groups(entries, feeds) && IndexOf(entries, f.target) == Some(k)
    requires entries[k].Direct? || entries[k].Aggregate?
    ensures Groups(entries[k := Merged(entries[k], DirectEntry(f))], feeds + [f])
  {
    var merged := Merged(entries[k], DirectEntry(f));
    assert GroupAt(entries, feeds, f.target);
    GroupTarget(feeds, f.target);
    MergedGroup(Contributors(feeds, f.target), f);
    var after, fed := entries[k := merged], feeds + [f];
    forall t ensures GroupAt(after, fed, t) {
      assert GroupAt(entries, feeds, t);
      IndexOfUpdate(entries, k, merged, t);
      ContributorsStep(feeds, f, t);
    }
  }

  /** Appending one contribution regroups: the list accepts it exactly when `ListAccepts` says so. */
  lemma AppendRegroups(entries: seq<Entry>, feeds: seq<Feed>, f: Feed)
    requires Groups(entries, feeds)
    ensures Appended(entries, DirectEntry(f)).Some? <==> ListAccepts(feeds, f)
    ensures ListAccepts(feeds, f) ==> Groups(Appended(entries, DirectEntry(f)).value, feeds + [f])
  {
    assert GroupAt(entries, feeds, f.target);
    match IndexOf(entries, f.target)
    case None => AppendNewRegroups(entries, feeds, f);
    case Some(k) => AppendMergeRegroups(entries, feeds, f, k);
  }

  class ProvenanceList {
    var entries: seq<Entry>
    var byTarget: map<Path, nat>
    var sourceKeys: map<Path, set<Source>>

    constructor ()
      ensures Valid() && entries == []
    {
      entries, byTarget, sourceKeys := [], map[], map[];
    }

    /** The target index and the per-target cell sets agree with the list. */
    ghost predicate Valid()
      reads this
    {
      && DistinctTargets(entries)
      && (forall t :: t in byTarget ==> byTarget[t] < |entries| && entries[byTarget[t]].target == t)
      && (forall k :: 0 <= k < |entries| ==> entries[k].target in byTarget)
      && (forall k :: 0 <= k < |entries| && entries[k].Aggregate? ==> Keyed(entries[k]))
    }

    ghost predicate Keyed(e: Entry)
      requires e.Aggregate?
      reads this
    {
      e.target in sourceKeys && forall s :: s in sourceKeys[e.target] <==> s in e.sources
    }

    /** A refused entry leaves the list as it was. */
    method Append(e: Entry) returns (accepted: bool)
      requires Valid()
      requires !e.Aggregate?
      modifies this
      ensures Valid()
      ensures accepted <==> Appended(old(entries), e).Some?
      ensures entries == if accepted then Appended(old(entries), e).value else old(entries)
    {
      hide IndexOf, Merged, PyEq;
      if e.target !in byTarget {
        Unlisted(entries, e.target);
        entries := entries + [e];
        byTarget := byTarget[e.target := |entries| - 1];
        return true;
      }
      var k := byTarget[e.target];
      IndexOfMember(entries, k);
      if e.Direct? && PyEq(entries[k].value, e.value) && (entries[k].Direct? || entries[k].Aggregate?) {
        accepted := Merge(k, e);
      } else {
        accepted := false;
      }
    }

    method Merge(k: nat, e: Entry) returns (accepted: bool)
      requires Valid()
      requires k < |entries| && entries[k].target == e.target && e.Direct?
      requires entries[k].Direct? || entries[k].Aggregate?
      modifies this`entries, this`sourceKeys
      ensures Valid()
      ensures accepted <==> old(entries)[k].Direct? || e.source !in old(entries)[k].sources
      ensures entries == if accepted then old(entries)[k := Merged(old(entries)[k], e)] else old(entries)
    {
      var existing := entries[k];
      if existing.Direct? {
        sourceKeys := sourceKeys[e.target := {existing.source, e.source}];
      } else {
        if e.source in sourceKeys[e.target] {
          return false;
        }
        sourceKeys := sourceKeys[e.target := sourceKeys[e.target] + {e.source}];
      }
      var merged := Merged(existing, e);
      entries := entries[k := merged];
      assert Keyed(merged);
      return true;
    }

    /** Every aggregate's cells in coordinate order. */
    method FinalizeAggregates()
      requires Valid()
      modifies this`entries
      ensures Valid()
      ensures |entries| == |old(entries)|
      ensures forall k :: 0 <= k < |entries| ==> entries[k] == Finalized(old(entries)[k])
    {
      ghost var before := entries;
      var k := 0;
      while k < |entries|
        invariant 0 <= k <= |entries| == |before|
        invariant forall j :: 0 <= j < |entries| ==> entries[j] == if j < k then Finalized(before[j]) else before[j]
      {
        if entries[k].Aggregate? {
          entries := entries[k := entries[k].(sources := Sort(entries[k].sources, SourceLe))];
        }
        k := k + 1;
      }
      assert forall j :: 0 <= j < |entries| ==> entries[j].target == before[j].target;
      forall j | 0 <= j < |entries| && entries[j].Aggregate? ensures Keyed(entries[j]) {
        FinalizedKeepsSources(before[j]);
        assert Keyed(before[j]);
      }
    }
  }
}

/** The parser-cell role plan, kept without looking at the builder's provenance list. */
module EvidencePlanning {
  import opened Json
  import opened Ordering
  import opened Provenance

  datatype Contribution = Contribution(value: Json, sources: seq<Source>)

  /** A target's spelling, the key of every sort over mapping entries. */
  function TargetText(t: Path): string {
    if t != [] && t[0].Key? then Render(t) else ""
  }

  function EntryKey(e: Entry): seq<string> {
    [TargetText(e.target)]
  }

  /** What the plan expects for one target. */
  function PlannedEntry(t: Path, c: Contribution): Entry {
    var sources := Sort(c.sources, SourceLe);
    if |sources| == 1 then Direct(t, c.value, sources[0], CONVERSION_CONTRACT)
    else Aggregate(t, c.value, sources, AGGREGATION_CONTRACT, CONVERSION_CONTRACT)
  }

  ghost predicate PlannedAt(contributors: map<Path, Contribution>, feeds: seq<Feed>, t: Path) {
    var group := Contributors(feeds, t);
    && (t in contributors <==> group != [])
    && (group != [] ==> contributors[t] == Contribution(group[0].value, SourcesOf(group)))
  }

  /** The dictionary holds, per target, the group of that target's contributions. */
  ghost predicate PlanGroups(contributors: map<Path, Contribution>, feeds: seq<Feed>) {
    forall t :: PlannedAt(contributors, feeds, t)
  }

  /** The plan and the finalized list write the same entry for the same contributions. */
  lemma PlannedIsFinalizedGroup(t: Path, group: seq<Feed>)
    requires group != [] && group[0].target == t
    ensures PlannedEntry(t, Contribution(group[0].value, SourcesOf(group))) == Finalized(GroupEntry(group))
  {
    var sources := SourcesOf(group);
    assert |Sort(sources, SourceLe)| == |multiset(Sort(sources, SourceLe))| == |multiset(sources)| == |sources|;
    if |group| == 1 {
      assert sources == [group[0].source];
      assert sources[1..] == [];
    }
  }

  class EvidencePlan {
    var contributors: map<Path, Contribution>
    var contributorOrder: seq<Path>
    var sourceKeys: map<Path, set<Source>>
    var derived: map<Path, Entry>
    var derivedOrder: seq<Path>

    constructor ()
      ensures Valid() && contributors == map[] && derived == map[]
    {
      contributors, contributorOrder, sourceKeys, derived, derivedOrder := map[], [], map[], map[], [];
    }

    ghost predicate Valid()
      reads this
    {
      && (forall t :: t in contributors <==> t in contributorOrder)
      && (forall i, j :: 0 <= i < j < |contributorOrder| ==> contributorOrder[i] != contributorOrder[j])
      && (forall t :: t in contributors ==>
            t in sourceKeys && forall s :: s in sourceKeys[t] <==> s in contributors[t].sources)
      && (forall t :: t in derived <==> t in derivedOrder)
      && (forall i, j :: 0 <= i < j < |derivedOrder| ==> derivedOrder[i] != derivedOrder[j])
      && (forall t :: t in derived ==> derived[t].target == t)
    }

    /** One more cell for `target`; refused on another value or a repeated cell. */
    method Add(target: Path, value: Json, source: Source) returns (accepted: bool)
      requires Valid()
      modifies this`contributors, this`contributorOrder, this`sourceKeys
      ensures Valid()
      ensures accepted <==>
        target in old(contributors) ==>
          old(contributors)[target].value == value && source !in old(contributors)[target].sources
      ensures !accepted ==> contributors == old(contributors)
      ensures accepted ==> contributors == old(contributors)[target :=
          if target in old(contributors)
          then Contribution(value, old(contributors)[target].sources + [source])
          else Contribution(value, [source])]
    {
      if target !in contributors {
        contributors := contributors[target := Contribution(value, [source])];
        contributorOrder := contributorOrder + [target];
        sourceKeys := sourceKeys[target := {source}];
        return true;
      }
      if contributors[target].value != value || source in sourceKeys[target] {
        return false;
      }
      contributors := contributors[target := contributors[target].(sources := contributors[target].sources + [source])];
      sourceKeys := sourceKeys[target := sourceKeys[target] + {source}];
      return true;
    }

    /** A row locator, refused when the target already has a role. */
    method AddDerived(target: Path, value: Json, anchor: Path, source: Source) returns (accepted: bool)
      requires Valid()
      modifies this`derived, this`derivedOrder
      ensures Valid()
      ensures accepted <==> target !in old(derived) && target !in contributors
      ensures derived == if accepted
        then old(derived)[target := DerivedLocator(target, value, source, anchor, LOCATOR_CONTRACT)] else old(derived)
    {
      if target in derived || target in contributors {
        return false;
      }
      derived := derived[target := DerivedLocator(target, value, source, anchor, LOCATOR_CONTRACT)];
      derivedOrder := derivedOrder + [target];
      return true;
    }

    /** Every expected mapping, in target order. */
    method ExpectedMappings() returns (r: seq<Entry>)
      requires Valid()
      requires forall t :: t in derived ==> t !in contributors
      ensures DistinctTargets(r) && Sorted(r, ByKey(EntryKey))
      ensures forall e :: e in r <==>
        || (e.target in contributors && e == PlannedEntry(e.target, contributors[e.target]))
        || (e.target in derived && e == derived[e.target])
    {
      var planned := map t | t in contributors :: PlannedEntry(t, contributors[t]);
      var direct := ListInOrder(contributorOrder, planned);
      var locators := ListInOrder(derivedOrder, derived);
      var listed := direct + locators;
      assert forall e :: e in listed <==> e in direct || e in locators;
      SortSorts(listed, ByKey(EntryKey));
      SortKeepsDistinct(listed);
      r := Sort(listed, ByKey(EntryKey));
    }
  }

  /** A dictionary's values in insertion order. */
  method ListInOrder(order: seq<Path>, entries: map<Path, Entry>) returns (r: seq<Entry>)
    requires forall t :: t in entries <==> t in order
    requires forall i, j :: 0 <= i < j < |order| ==> order[i] != order[j]
    requires forall t :: t in entries ==> entries[t].target == t
    ensures DistinctTargets(r)
    ensures forall e :: e in r <==> e.target in entries && e == entries[e.target]
  {
    r := [];
    while |r| < |order|
      invariant |r| <= |order|
      invariant forall j :: 0 <= j < |r| ==> order[j] in entries && r[j] == entries[order[j]]
    {
      assert order[|r|] in order;
      r := r + [entries[order[|r|]]];
    }
    forall e: Entry | e.target in entries && e == entries[e.target] ensures e in r {
      var j :| 0 <= j < |order| && order[j] == e.target;
      assert r[j] == e;
    }
  }

  lemma AddRegroups(before: map<Path, Contribution>, feeds: seq<Feed>, f: Feed)
    requires PlanGroups(before, feeds)
    ensures PlanAccepts(feeds, f) <==>
      (f.target in before ==> before[f.target].value == f.value && f.source !in before[f.target].sources)
    ensures PlanAccepts(feeds, f) ==>
      PlanGroups(before[f.target := if f.target in before
          then Contribution(f.value, before[f.target].sources + [f.source])
          else Contribution(f.value, [f.source])], feeds + [f])
  {
    assert PlannedAt(before, feeds, f.target);
    if PlanAccepts(feeds, f) {
      var after := before[f.target := if f.target in before
          then Contribution(f.value, before[f.target].sources + [f.source])
          else Contribution(f.value, [f.source])];
      var fed := feeds + [f];
      var group := Contributors(feeds, f.target);
      assert SourcesOf(group + [f]) == SourcesOf(group) + [f.source];
      forall t ensures PlannedAt(after, fed, t) {
        assert PlannedAt(before, feeds, t);
        ContributorsStep(feeds, f, t);
      }
    }
  }

  lemma SortKeepsDistinct(entries: seq<Entry>)
    requires DistinctTargets(entries)
    ensures DistinctTargets(Sort(entries, ByKey(EntryKey)))
    ensures forall e :: e in Sort(entries, ByKey(EntryKey)) <==> e in entries
  {
    var sorted := Sort(entries, ByKey(EntryKey));
    assert forall e :: e in sorted <==> e in multiset(sorted);
    assert forall e :: e in entries <==> e in multiset(entries);
    SortKeepsDistinctTargets(entries, ByKey(EntryKey));
  }

  lemma {:induction false} SortKeepsDistinctTargets(entries: seq<Entry>, le: (Entry, Entry) -> bool)
    requires DistinctTargets(entries)
    ensures DistinctTargets(Sort(entries, le))
  {
    if entries != [] {
      SortKeepsDistinctTargets(entries[1..], le);
      var rest := Sort(entries[1..], le);
      forall e | e in rest ensures e.target != entries[0].target {
        assert e in multiset(rest);
        var k :| 0 <= k < |entries[1..]| && entries[1..][k] == e;
        assert entries[k + 1] == e;
      }
      InsertKeepsDistinctTargets(entries[0], rest, le);
    }
  }

  lemma {:induction false} InsertKeepsDistinctTargets(x: Entry, entries: seq<Entry>, le: (Entry, Entry) -> bool)
    requires DistinctTargets(entries) && forall e :: e in entries ==> e.target != x.target
    ensures DistinctTargets(Insert(x, entries, le))
  {
    if entries != [] && !le(x, entries[0]) {
      InsertKeepsDistinctTargets(x, entries[1..], le);
      var rest := Insert(x, entries[1..], le);
      forall k | 0 <= k < |rest| ensures rest[k].target != entries[0].target {
        assert rest[k] in multiset(rest);
        assert rest[k] == x || rest[k] in entries[1..];
      }
    }
  }
}

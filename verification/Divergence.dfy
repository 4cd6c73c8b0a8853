/** On contributions no table can produce, the provenance list and the evidence plan do not agree. */
module Divergence {
  import opened Json
  import opened Provenance

  /** The builder's list takes every contribution in turn. */
  ghost predicate ListTakes(feeds: seq<Feed>) {
    feeds != [] ==> ListTakes(feeds[..|feeds| - 1]) && ListAccepts(feeds[..|feeds| - 1], feeds[|feeds| - 1])
  }

  /** The evidence plan takes every contribution in turn. */
  ghost predicate PlanTakes(feeds: seq<Feed>) {
    feeds != [] ==> PlanTakes(feeds[..|feeds| - 1]) && PlanAccepts(feeds[..|feeds| - 1], feeds[|feeds| - 1])
  }

  /** One value, Python's `1 == 1.0 == True` allowed, and no cell repeated except between the first two. */
  ghost predicate LooseGroup(group: seq<Feed>) {
    forall i, j :: 0 <= i < j < |group| ==>
      PyEq(group[0].value, group[j].value) && (j > 1 ==> group[i].source != group[j].source)
  }

  /** One tagged value and no cell repeated. */
  ghost predicate StrictGroup(group: seq<Feed>) {
    forall i, j :: 0 <= i < j < |group| ==> group[0].value == group[j].value && group[i].source != group[j].source
  }

  ghost predicate LooseAt(feeds: seq<Feed>, t: Path) {
    LooseGroup(Contributors(feeds, t))
  }

  ghost predicate StrictAt(feeds: seq<Feed>, t: Path) {
    StrictGroup(Contributors(feeds, t))
  }

  lemma LastSource(group: seq<Feed>, f: Feed)
    ensures f.source !in SourcesOf(group) <==> forall i :: 0 <= i < |group| ==> group[i].source != f.source
  {
    forall i | 0 <= i < |group| ensures SourcesOf(group)[i] == group[i].source {}
  }

  lemma LooseStep(group: seq<Feed>, f: Feed)
    ensures LooseGroup(group + [f]) <==>
      LooseGroup(group) && (group == [] || (PyEq(group[0].value, f.value) && (|group| == 1 || f.source !in SourcesOf(group))))
  {
    LastSource(group, f);
    var more := group + [f];
    assert forall i :: 0 <= i < |group| ==> more[i] == group[i];
    if LooseGroup(more) && group != [] {
      assert more[|group|] == f;
      assert PyEq(more[0].value, more[|group|].value);
      assert forall i :: 0 <= i < |group| && |group| > 1 ==> more[i].source != more[|group|].source;
    }
  }

  lemma StrictStep(group: seq<Feed>, f: Feed)
    ensures StrictGroup(group + [f]) <==>
      StrictGroup(group) && (group == [] || (group[0].value == f.value && f.source !in SourcesOf(group)))
  {
    LastSource(group, f);
    var more := group + [f];
    assert forall i :: 0 <= i < |group| ==> more[i] == group[i];
    if StrictGroup(more) && group != [] {
      assert more[|group|] == f;
      assert more[0].value == more[|group|].value;
    }
  }

  lemma LooseAtStep(front: seq<Feed>, f: Feed, t: Path)
    ensures LooseAt(front + [f], t) <==> LooseAt(front, t) && (t == f.target ==> ListAccepts(front, f))
  {
    ContributorsStep(front, f, t);
    LooseStep(Contributors(front, t), f);
    assert t != f.target ==> Contributors(front + [f], t) == Contributors(front, t);
  }

  /** The list takes a run of contributions exactly when every target's group is loose. */
  lemma {:induction false} ListTakesIff(feeds: seq<Feed>)
    ensures ListTakes(feeds) <==> forall t :: LooseAt(feeds, t)
  {
    if feeds != [] {
      var n := |feeds| - 1;
      var front, f := feeds[..n], feeds[n];
      ListTakesIff(front);
      assert feeds == front + [f];
      forall t ensures LooseAt(feeds, t) <==> LooseAt(front, t) && (t == f.target ==> ListAccepts(front, f)) {
        LooseAtStep(front, f, t);
      }
      hide LooseAt, ListAccepts;
      assert LooseAt(feeds, f.target) <==> LooseAt(front, f.target) && ListAccepts(front, f);
    }
  }

  lemma StrictAtStep(front: seq<Feed>, f: Feed, t: Path)
    ensures StrictAt(front + [f], t) <==> StrictAt(front, t) && (t == f.target ==> PlanAccepts(front, f))
  {
    ContributorsStep(front, f, t);
    StrictStep(Contributors(front, t), f);
    assert t != f.target ==> Contributors(front + [f], t) == Contributors(front, t);
  }

  /** The plan takes it exactly when every target's group is strict. */
  lemma {:induction false} PlanTakesIff(feeds: seq<Feed>)
    ensures PlanTakes(feeds) <==> forall t :: StrictAt(feeds, t)
  {
    if feeds != [] {
      var n := |feeds| - 1;
      var front, f := feeds[..n], feeds[n];
      PlanTakesIff(front);
      assert feeds == front + [f];
      forall t ensures StrictAt(feeds, t) <==> StrictAt(front, t) && (t == f.target ==> PlanAccepts(front, f)) {
        StrictAtStep(front, f, t);
      }
      hide StrictAt, PlanAccepts;
      assert StrictAt(feeds, f.target) <==> StrictAt(front, f.target) && PlanAccepts(front, f);
    }
  }

  lemma StrictIsLoose(group: seq<Feed>)
    requires StrictGroup(group)
    ensures LooseGroup(group)
  {
    forall i, j | 0 <= i < j < |group|
      ensures PyEq(group[0].value, group[j].value) && (j > 1 ==> group[i].source != group[j].source)
    {
      assert group[i].source != group[j].source;
      PyEqReflexive(group[j].value);
    }
  }

  /** A target whose first two contributions repeat a cell, or whose values are equal only to Python. */
  ghost predicate Disputed(feeds: seq<Feed>, t: Path) {
    var group := Contributors(feeds, t);
    || (|group| > 1 && group[0].source == group[1].source)
    || (exists j :: 0 < j < |group| && group[0].value != group[j].value)
  }

  lemma LooseAndUndisputed(feeds: seq<Feed>, t: Path)
    requires LooseAt(feeds, t)
    ensures StrictAt(feeds, t) <==> !Disputed(feeds, t)
  {
    var group := Contributors(feeds, t);
    if StrictGroup(group) {
      assert forall j :: 0 < j < |group| ==> group[0].value == group[j].value;
    }
  }

  /** Whatever the plan takes, the list takes; what the list takes the plan refuses exactly when some
      target is disputed. */
  lemma DivergeExactly(feeds: seq<Feed>)
    ensures PlanTakes(feeds) ==> ListTakes(feeds)
    ensures ListTakes(feeds) ==> (PlanTakes(feeds) <==> forall t :: !Disputed(feeds, t))
  {
    ListTakesIff(feeds);
    PlanTakesIff(feeds);
    forall t ensures StrictAt(feeds, t) ==> LooseAt(feeds, t) {
      if StrictAt(feeds, t) { StrictIsLoose(Contributors(feeds, t)); }
    }
    forall t ensures LooseAt(feeds, t) ==> (StrictAt(feeds, t) <==> !Disputed(feeds, t)) {
      if LooseAt(feeds, t) { LooseAndUndisputed(feeds, t); }
    }
  }

  /** The same cell twice for one leaf: the list merges it with itself, the plan refuses it. */
  lemma FirstMergeRepeatsACell(f: Feed)
    ensures ListTakes([f, f]) && !PlanTakes([f, f])
  {
    assert [f, f][..1] == [f] && [f][..0] == [];
    ContributorsStep([], f, f.target);
    assert [] + [f] == [f];
    assert Contributors([f], f.target) == [f];
    PyEqReflexive(f.value);
    LastSource([f], f);
    assert [f][0].source == f.source;
    assert !PlanAccepts([f], f);
    assert ListAccepts([], f) && ListAccepts([f], f);
    assert ListTakes([f]);
  }
}

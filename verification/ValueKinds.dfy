/** Which lists the closure check cannot tell from the expected one: it compares values with Python's `==`. */
module ValueKinds {
  import opened Json
  import opened Provenance
  import opened Tables
  import opened Roles
  import opened Feeds
  import opened Builder
  import opened Agreement
  import opened Documents
  import opened Closure
  import opened HonestClosure
  import opened ClosureTheorem
  import opened ClosureExact
  import opened Existence
  import opened Submitted

  // ---------- Values with an equal of another kind ----------

  /** A boolean, an integer or a float without fraction: Python has another value equal to it. */
  predicate Ambiguous(v: Json) {
    v.Bool? || v.Int? || (v.Real? && v.r == v.r.Floor as real)
  }

  function Twin(v: Json): Json
    requires Ambiguous(v)
  {
    match v
    case Bool(b) => Int(if b then 1 else 0)
    case Int(i) => Real(i as real)
    case Real(r) => Int(r.Floor)
  }

  lemma TwinEqual(v: Json)
    requires Ambiguous(v)
    ensures Twin(v) != v && PyEq(Twin(v), v)
  {}

  lemma OnlyItself(a: Json, v: Json)
    requires Scalar(Some(v)) && !Ambiguous(v) && PyEq(a, v)
    ensures a == v
  {}

  /** No leaf of the document holds an ambiguous value. */
  ghost predicate PlainLeaves(ev: Evidence, ctx: Context) {
    forall role :: LeafPlain(ev, ctx, role)
  }

  predicate LeafPlain(ev: Evidence, ctx: Context, role: Role) {
    var leaf := LeafValue(FieldsOf(ctx), ev.registry, role);
    leaf.Some? ==> !Ambiguous(leaf.value)
  }

  // ---------- Exchanging one value ----------

  /** At an ambiguous leaf the value may be exchanged: the list is still accepted, and is not the expected one. */
  lemma Alter(ev: Evidence, ctx: Context, entries: seq<Entry>, role: Role) returns (altered: seq<Entry>, k: nat)
    requires Honest(ev, ctx) && IsFullProvenance(ev, ctx, entries) && Closed(ev, entries) && !LeafPlain(ev, ctx, role)
    ensures var v := LeafValue(FieldsOf(ctx), ev.registry, role).value;
      && k < |entries| && entries[k].target == PathOf(role) && entries[k].value == v
      && altered == entries[k := WithValue(entries[k], Twin(v))]
    ensures Closed(ev, altered) && !IsFullProvenance(ev, ctx, altered)
  {
    hide Honest, Closed, FullyExpected, LeafValue, FieldsOf, PathOf, Expected, DistinctTargets;
    var e := LeafEntry(ev, ctx, role);
    var found := EntryLeaf(ev, ctx, e);
    PathsDiffer(role, found);
    assert e in entries;
    k :| 0 <= k < |entries| && entries[k] == e;
    if !CellEntry(ctx, e) {
      TextValue(ev, ctx, e);
    }
    TwinEqual(e.value);
    var changed := WithValue(e, Twin(e.value));
    Rewritten(e, Twin(e.value));
    altered := entries[k := changed];
    assert Exchanged(entries, altered);
    EqualValuesInterchange(ev, entries, altered);
    assert changed in altered by {
      assert altered[k] == changed;
    }
    if FullyExpected(ev, ctx, changed) {
      OnePerTarget(ev, ctx, changed, e);
    }
  }

  lemma Rewritten(e: Entry, v: Json)
    requires PyEq(v, e.value) && v != e.value
    ensures EntryEq(WithValue(e, v), e) && WithValue(e, v).target == e.target && WithValue(e, v) != e
  {}

  /** Without ambiguous leaves an accepted list is the expected one. */
  lemma PlainIsPinned(ev: Evidence, ctx: Context, m: seq<Entry>)
    requires Honest(ev, ctx) && PlainLeaves(ev, ctx) && WithinLimits(ev, m) && Closed(ev, m)
    ensures IsFullProvenance(ev, ctx, m)
  {
    AcceptedExactly(ev, ctx, m);
    hide Honest, Closed, FullyExpected, LeafValue, FieldsOf, PathOf, Known, EntryEq, MappedAs;
    var exact := Witnesses(ev, ctx, m);
    ExactList(ev, ctx, m, exact);
    forall k | 0 <= k < |m| ensures m[k] == exact[k] {
      var role := EntryLeaf(ev, ctx, exact[k]);
      assert LeafPlain(ev, ctx, role);
      SameKindSame(m[k], exact[k]);
    }
    assert m == exact;
  }

  lemma SameKindSame(a: Entry, b: Entry)
    requires EntryEq(a, b) && Scalar(Some(b.value)) && !Ambiguous(b.value)
    ensures a == b
  {
    OnlyItself(a.value, b.value);
  }

  /**
    * Among lists written with integer coordinates, the accepted ones are the expected provenance itself, in any order,
    * if and only if no leaf of the document is a boolean, an integer or a float without fraction. Among all lists they
    * never are (`Submitted.NeverPinned`).
    */
  lemma PinnedIff(ev: Evidence, ctx: Context, entries: seq<Entry>)
    requires Honest(ev, ctx) && IsFullProvenance(ev, ctx, entries) && WithinLimits(ev, entries)
    ensures (forall m :: WithinLimits(ev, m) && Admitted(ev, WrittenAll(m)) ==> IsFullProvenance(ev, ctx, m)) <==> PlainLeaves(ev, ctx)
  {
    HonestAccepted(ev, ctx, entries);
    hide Honest, Closed, Admitted, WrittenAll, IsFullProvenance, LeafPlain;
    if PlainLeaves(ev, ctx) {
      forall m | WithinLimits(ev, m) && Admitted(ev, WrittenAll(m)) ensures IsFullProvenance(ev, ctx, m) {
        WrittenIff(ev, m);
        PlainIsPinned(ev, ctx, m);
      }
    } else {
      var role :| !LeafPlain(ev, ctx, role);
      var altered, k := Alter(ev, ctx, entries, role);
      assert WithinLimits(ev, altered);
      WrittenIff(ev, altered);
    }
  }
}

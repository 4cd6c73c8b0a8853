/** The row indexes the rules look things up in, against plain scans of the rows. */
module Relations {
  import opened Json

  type Norm = string -> string

  /** A process step and a characteristic. */
  type Pair = (string, string)

  /** A risk or characteristic row; members that are absent or of another type are None. */
  datatype Row = Row(step: Option<string>, characteristic: string, controlId: Option<string>, specification: Option<Json>,
                     special: bool, controlMethod: Option<string>, frequency: Option<string>, reaction: Option<string>)

  datatype Document = Document(steps: seq<string>, rows: seq<Row>)

  function KeyOf(norm: Norm, p: Pair): Pair {
    (norm(p.0), norm(p.1))
  }

  /** The row names exactly this pair, up to normalization. */
  predicate Names(norm: Norm, row: Row, p: Pair) {
    row.step.Some? && norm(row.step.value) == norm(p.0) && norm(row.characteristic) == norm(p.1)
  }

  /** The row is bound to a step and shares one half of the pair. */
  predicate SharesHalf(norm: Norm, row: Row, p: Pair) {
    row.step.Some? && (norm(row.step.value) == norm(p.0) || norm(row.characteristic) == norm(p.1))
  }

  /** The normalized pair a bound row names. */
  function RowKey(norm: Norm, row: Row): Pair {
    (if row.step.Some? then norm(row.step.value) else "", norm(row.characteristic))
  }

  ghost predicate HasRow(norm: Norm, rows: seq<Row>, p: Pair) {
    exists k :: 0 <= k < |rows| && Names(norm, rows[k], p)
  }

  ghost predicate HasHalf(norm: Norm, rows: seq<Row>, p: Pair) {
    exists k :: 0 <= k < |rows| && SharesHalf(norm, rows[k], p)
  }

  /** No two bound rows name the same pair: what validation guarantees of characteristics. */
  ghost predicate RowsDistinct(norm: Norm, rows: seq<Row>) {
    forall i, j :: 0 <= i < j < |rows| && rows[i].step.Some? && rows[j].step.Some? ==>
      RowKey(norm, rows[i]) != RowKey(norm, rows[j])
  }

  // ---------- `_characteristics` ----------

  ghost predicate IndexesRows(norm: Norm, rows: seq<Row>, index: map<Pair, nat>, n: nat)
    requires n <= |rows|
  {
    && (forall key :: key in index ==> index[key] < n && rows[index[key]].step.Some? && RowKey(norm, rows[index[key]]) == key)
    && (forall k :: 0 <= k < n && rows[k].step.Some? ==> RowKey(norm, rows[k]) in index)
  }

  method IndexRows(norm: Norm, rows: seq<Row>) returns (index: map<Pair, nat>)
    ensures IndexesRows(norm, rows, index, |rows|)
  {
    index := map[];
    var k := 0;
    while k < |rows|
      invariant 0 <= k <= |rows| && IndexesRows(norm, rows, index, k)
    {
      if rows[k].step.Some? {
        index := index[RowKey(norm, rows[k]) := k];
      }
      k := k + 1;
    }
  }

  /** A lookup finds a row naming the pair exactly when one exists. */
  lemma LookupFinds(norm: Norm, rows: seq<Row>, index: map<Pair, nat>, p: Pair)
    requires IndexesRows(norm, rows, index, |rows|)
    ensures KeyOf(norm, p) in index <==> HasRow(norm, rows, p)
    ensures KeyOf(norm, p) in index ==> Names(norm, rows[index[KeyOf(norm, p)]], p)
  {
    if HasRow(norm, rows, p) {
      var k :| 0 <= k < |rows| && Names(norm, rows[k], p);
      assert RowKey(norm, rows[k]) == KeyOf(norm, p);
    }
  }

  /** In validated rows the row found is the only one. */
  lemma LookupUnique(norm: Norm, rows: seq<Row>, k: nat, p: Pair)
    requires RowsDistinct(norm, rows) && k < |rows| && Names(norm, rows[k], p)
    ensures forall j :: 0 <= j < |rows| && Names(norm, rows[j], p) ==> j == k
  {
    forall j | 0 <= j < |rows| && Names(norm, rows[j], p) ensures j == k {
      SameKey(norm, rows, j, k, p);
    }
  }

  lemma SameKey(norm: Norm, rows: seq<Row>, j: nat, k: nat, p: Pair)
    requires RowsDistinct(norm, rows) && j < |rows| && k < |rows| && Names(norm, rows[j], p) && Names(norm, rows[k], p)
    ensures j == k
  {}

  // ---------- `_risks` ----------

  /** The bucket lists exactly the bound rows before `n` that pass the test. */
  ghost predicate Lists(rows: seq<Row>, bucket: seq<nat>, n: nat, test: Row -> bool)
    requires n <= |rows|
  {
    forall k: nat :: k in bucket <==> k < n && rows[k].step.Some? && test(rows[k])
  }

  ghost predicate GroupsRows(norm: Norm, rows: seq<Row>, index: map<Pair, seq<nat>>, n: nat)
    requires n <= |rows|
  {
    forall key: Pair ::
      && Lists(rows, Group(index, key), n, (row: Row) => RowKey(norm, row) == key)
      && (key in index <==> Group(index, key) != [])
  }

  function Group(index: map<Pair, seq<nat>>, key: Pair): seq<nat> {
    if key in index then index[key] else []
  }

  lemma ListsNext(rows: seq<Row>, bucket: seq<nat>, n: nat, test: Row -> bool)
    requires n < |rows| && Lists(rows, bucket, n, test)
    ensures rows[n].step.Some? && test(rows[n]) ==> Lists(rows, bucket + [n], n + 1, test)
    ensures !(rows[n].step.Some? && test(rows[n])) ==> Lists(rows, bucket, n + 1, test)
  {
    forall k: nat ensures k in bucket + [n] <==> k in bucket || k == n {}
  }

  method GroupRows(norm: Norm, rows: seq<Row>) returns (index: map<Pair, seq<nat>>)
    ensures GroupsRows(norm, rows, index, |rows|)
  {
    index := map[];
    var k := 0;
    while k < |rows|
      invariant 0 <= k <= |rows| && GroupsRows(norm, rows, index, k)
    {
      ghost var before := index;
      if rows[k].step.Some? {
        index := index[RowKey(norm, rows[k]) := Group(index, RowKey(norm, rows[k])) + [k]];
      }
      forall key: Pair
        ensures Lists(rows, Group(index, key), k + 1, (row: Row) => RowKey(norm, row) == key)
        ensures key in index <==> Group(index, key) != []
      {
        ListsNext(rows, Group(before, key), k, (row: Row) => RowKey(norm, row) == key);
      }
      k := k + 1;
    }
  }

  lemma GroupFinds(norm: Norm, rows: seq<Row>, index: map<Pair, seq<nat>>, p: Pair)
    requires GroupsRows(norm, rows, index, |rows|)
    ensures KeyOf(norm, p) in index <==> HasRow(norm, rows, p)
    ensures forall k: nat :: k in Group(index, KeyOf(norm, p)) <==> k < |rows| && Names(norm, rows[k], p)
  {
    var key := KeyOf(norm, p);
    var group := Group(index, key);
    assert Lists(rows, group, |rows|, (row: Row) => RowKey(norm, row) == key);
    if HasRow(norm, rows, p) {
      var k: nat :| k < |rows| && Names(norm, rows[k], p);
      assert k in group;
    }
    if group != [] {
      assert group[0] in group;
      assert Names(norm, rows[group[0]], p);
    }
  }

  // ---------- Candidates ----------

  function Bucket(index: map<string, seq<nat>>, key: string): seq<nat> {
    if key in index then index[key] else []
  }

  function StepIs(norm: Norm, key: string): Row -> bool {
    (row: Row) => row.step.Some? && norm(row.step.value) == key
  }

  function CharacteristicIs(norm: Norm, key: string): Row -> bool {
    (row: Row) => norm(row.characteristic) == key
  }

  /** Row numbers by normalized half. */
  ghost predicate HalfIndex(norm: Norm, rows: seq<Row>, byStep: map<string, seq<nat>>, byCharacteristic: map<string, seq<nat>>, n: nat)
    requires n <= |rows|
  {
    forall key: string ::
      Lists(rows, Bucket(byStep, key), n, StepIs(norm, key)) && Lists(rows, Bucket(byCharacteristic, key), n, CharacteristicIs(norm, key))
  }

  /** `_relationship_candidate_indexes`. */
  method IndexHalves(norm: Norm, rows: seq<Row>) returns (byStep: map<string, seq<nat>>, byCharacteristic: map<string, seq<nat>>)
    ensures HalfIndex(norm, rows, byStep, byCharacteristic, |rows|)
  {
    byStep, byCharacteristic := map[], map[];
    var k := 0;
    while k < |rows|
      invariant 0 <= k <= |rows| && HalfIndex(norm, rows, byStep, byCharacteristic, k)
    {
      ghost var steps, characteristics := byStep, byCharacteristic;
      if rows[k].step.Some? {
        var s, c := norm(rows[k].step.value), norm(rows[k].characteristic);
        byStep := byStep[s := Bucket(byStep, s) + [k]];
        byCharacteristic := byCharacteristic[c := Bucket(byCharacteristic, c) + [k]];
      }
      forall key: string
        ensures Lists(rows, Bucket(byStep, key), k + 1, StepIs(norm, key))
        ensures Lists(rows, Bucket(byCharacteristic, key), k + 1, CharacteristicIs(norm, key))
      {
        assert Lists(rows, Bucket(steps, key), k, StepIs(norm, key)) && Lists(rows, Bucket(characteristics, key), k, CharacteristicIs(norm, key));
        ListsNext(rows, Bucket(steps, key), k, StepIs(norm, key));
        ListsNext(rows, Bucket(characteristics, key), k, CharacteristicIs(norm, key));
      }
      k := k + 1;
    }
  }

  /** The first three distinct members of a bucket. */
  method TakeThree(bucket: seq<nat>) returns (taken: seq<nat>)
    ensures |taken| <= 3 && (taken != [] <==> bucket != [])
    ensures forall k :: k in taken ==> k in bucket
    ensures forall i, j :: 0 <= i < j < |taken| ==> taken[i] != taken[j]
    ensures |taken| < 3 ==> forall k :: k in bucket ==> k in taken
  {
    taken := [];
    var i := 0;
    while i < |bucket|
      invariant 0 <= i <= |bucket| && |taken| <= 2
      invariant forall k :: k in taken ==> k in bucket
      invariant forall j :: 0 <= j < i ==> bucket[j] in taken
      invariant forall a, b :: 0 <= a < b < |taken| ==> taken[a] != taken[b]
    {
      if bucket[i] !in taken {
        taken := taken + [bucket[i]];
        if |taken| == 3 {
          return;
        }
      }
      i := i + 1;
    }
    if bucket != [] {
      assert bucket[0] in taken;
    }
    if taken != [] {
      assert taken[0] in bucket;
    }
  }

  /** `_relationship_candidates`: at most three distinct rows, and none only when no row shares a half, so the
      cap never decides whether a pair is misbound. */
  method Candidates(norm: Norm, rows: seq<Row>, byStep: map<string, seq<nat>>, byCharacteristic: map<string, seq<nat>>, p: Pair)
    returns (candidates: seq<nat>)
    requires HalfIndex(norm, rows, byStep, byCharacteristic, |rows|)
    ensures |candidates| <= 3
    ensures candidates != [] <==> HasHalf(norm, rows, p)
    ensures forall k :: k in candidates ==> k < |rows| && SharesHalf(norm, rows[k], p)
    ensures forall i, j :: 0 <= i < j < |candidates| ==> candidates[i] != candidates[j]
  {
    hide SharesHalf, Bucket;
    var bucket := Bucket(byStep, norm(p.0)) + Bucket(byCharacteristic, norm(p.1));
    BucketMembers(norm, rows, byStep, byCharacteristic, p);
    hide HalfIndex;
    candidates := TakeThree(bucket);
    if HasHalf(norm, rows, p) {
      var k: nat :| k < |rows| && SharesHalf(norm, rows[k], p);
      assert k in bucket;
    }
    if bucket != [] {
      assert bucket[0] in bucket;
      assert SharesHalf(norm, rows[bucket[0]], p);
    }
  }

  lemma BucketMembers(norm: Norm, rows: seq<Row>, byStep: map<string, seq<nat>>, byCharacteristic: map<string, seq<nat>>, p: Pair)
    requires HalfIndex(norm, rows, byStep, byCharacteristic, |rows|)
    ensures forall k: nat :: k in Bucket(byStep, norm(p.0)) + Bucket(byCharacteristic, norm(p.1)) <==> k < |rows| && SharesHalf(norm, rows[k], p)
  {
    var a, b := Bucket(byStep, norm(p.0)), Bucket(byCharacteristic, norm(p.1));
    assert Lists(rows, a, |rows|, StepIs(norm, norm(p.0))) && Lists(rows, b, |rows|, CharacteristicIs(norm, norm(p.1)));
    forall k: nat ensures k in a + b <==> k in a || k in b {}
  }
}

/** Stable sorting as Python's `sorted` and `list.sort` do it, and when it forgets the input order. */
module Ordering {

  // ---------- Orders on text and on tuples of text ----------

  /** Code-point order on strings. */
  predicate TextLe(a: string, b: string) {
    |a| == 0 || (|b| > 0 && (a[0] < b[0] || (a[0] == b[0] && TextLe(a[1..], b[1..]))))
  }

  /** Order on tuples of strings, the keys every sort of the repository uses. */
  predicate KeyLe(a: seq<string>, b: seq<string>) {
    |a| == 0 || (|b| > 0 && TextLe(a[0], b[0]) && (a[0] == b[0] ==> KeyLe(a[1..], b[1..])))
  }

  /** `a` and `b` first differ at `k`. */
  ghost predicate DifferAt<T>(a: seq<T>, b: seq<T>, k: nat) {
    k < |a| && k < |b| && a[..k] == b[..k] && a[k] != b[k]
  }

  lemma DifferLater<T>(a: seq<T>, b: seq<T>, k: nat)
    requires a != [] && b != [] && a[0] == b[0]
    ensures DifferAt(a, b, k + 1) <==> DifferAt(a[1..], b[1..], k)
  {
    if k + 1 <= |a| && k + 1 <= |b| {
      assert a[..k + 1] == [a[0]] + a[1..][..k] && b[..k + 1] == [b[0]] + b[1..][..k];
    }
  }

  lemma {:induction false} DifferSomewhere<T>(a: seq<T>, b: seq<T>)
    ensures a <= b || b <= a || exists k: nat :: DifferAt(a, b, k)
  {
    if a != [] && b != [] {
      if a[0] != b[0] {
        assert DifferAt(a, b, 0);
      } else {
        DifferSomewhere(a[1..], b[1..]);
        assert a == [a[0]] + a[1..] && b == [b[0]] + b[1..];
        if k: nat :| DifferAt(a[1..], b[1..], k) {
          DifferLater(a, b, k);
        }
      }
    }
  }

  /** A prefix comes first, and otherwise the first character that differs decides. */
  lemma {:induction false} TextLeIff(a: string, b: string)
    ensures a <= b ==> TextLe(a, b)
    ensures b < a ==> !TextLe(a, b)
    ensures forall k: nat :: DifferAt(a, b, k) ==> (TextLe(a, b) <==> a[k] < b[k])
    ensures a <= b || b < a || exists k: nat :: DifferAt(a, b, k)
  {
    DifferSomewhere(a, b);
    if a != [] && b != [] && a[0] == b[0] {
      TextLeIff(a[1..], b[1..]);
      forall k: nat | DifferAt(a, b, k) ensures TextLe(a, b) <==> a[k] < b[k] {
        DifferLater(a, b, k - 1);
      }
    }
  }

  /** A shorter tuple comes first, and otherwise the first text that differs decides. */
  lemma {:induction false} KeyLeIff(a: seq<string>, b: seq<string>)
    ensures a <= b ==> KeyLe(a, b)
    ensures b < a ==> !KeyLe(a, b)
    ensures forall k: nat :: DifferAt(a, b, k) ==> (KeyLe(a, b) <==> TextLe(a[k], b[k]))
    ensures a <= b || b < a || exists k: nat :: DifferAt(a, b, k)
  {
    DifferSomewhere(a, b);
    if a != [] && b != [] {
      TextTotal(a[0], b[0]);
      if a[0] == b[0] {
        KeyLeIff(a[1..], b[1..]);
        forall k: nat | DifferAt(a, b, k) ensures KeyLe(a, b) <==> TextLe(a[k], b[k]) {
          DifferLater(a, b, k - 1);
        }
      }
    }
  }

  lemma {:induction false} TextTotal(a: string, b: string)
    ensures TextLe(a, b) || TextLe(b, a)
    ensures TextLe(a, b) && TextLe(b, a) ==> a == b
  {
    if |a| > 0 && |b| > 0 && a[0] == b[0] {
      TextTotal(a[1..], b[1..]);
      assert a == [a[0]] + a[1..] && b == [b[0]] + b[1..];
    }
  }

  lemma {:induction false} TextTransitive(a: string, b: string, c: string)
    requires TextLe(a, b) && TextLe(b, c)
    ensures TextLe(a, c)
  {
    if |a| > 0 && a[0] == b[0] == c[0] {
      TextTransitive(a[1..], b[1..], c[1..]);
    }
  }

  lemma {:induction false} KeyTotal(a: seq<string>, b: seq<string>)
    ensures KeyLe(a, b) || KeyLe(b, a)
    ensures KeyLe(a, b) && KeyLe(b, a) ==> a == b
  {
    if |a| > 0 && |b| > 0 {
      TextTotal(a[0], b[0]);
      if a[0] == b[0] {
        KeyTotal(a[1..], b[1..]);
        assert a == [a[0]] + a[1..] && b == [b[0]] + b[1..];
      }
    }
  }

  lemma {:induction false} KeyTransitive(a: seq<string>, b: seq<string>, c: seq<string>)
    requires KeyLe(a, b) && KeyLe(b, c)
    ensures KeyLe(a, c)
  {
    if |a| > 0 {
      TextTransitive(a[0], b[0], c[0]);
      TextTotal(a[0], b[0]);
      TextTotal(b[0], c[0]);
      if a[0] == c[0] {
        KeyTransitive(a[1..], b[1..], c[1..]);
      }
    }
  }

  ghost predicate TotalPreorder<T(!new)>(le: (T, T) -> bool) {
    && (forall a, b :: le(a, b) || le(b, a))
    && (forall a, b, c :: le(a, b) && le(b, c) ==> le(a, c))
  }

  /** The comparison a Python sort makes with `key=`. */
  function ByKey<T(!new)>(key: T -> seq<string>): (le: (T, T) -> bool)
    ensures TotalPreorder(le)
  {
    assert TotalPreorder((a: T, b: T) => KeyLe(key(a), key(b))) by {
      forall a: T, b: T ensures KeyLe(key(a), key(b)) || KeyLe(key(b), key(a)) {
        KeyTotal(key(a), key(b));
      }
      forall a: T, b: T, c: T | KeyLe(key(a), key(b)) && KeyLe(key(b), key(c))
        ensures KeyLe(key(a), key(c))
      {
        KeyTransitive(key(a), key(b), key(c));
      }
    }
    (a: T, b: T) => KeyLe(key(a), key(b))
  }

  // ---------- The sort ----------

  function Insert<T>(x: T, xs: seq<T>, le: (T, T) -> bool): (r: seq<T>)
    ensures multiset(r) == multiset{x} + multiset(xs)
  {
    if xs == [] || (le(x, xs[0])) then [x] + xs
    else
      assert xs == [xs[0]] + xs[1..];
      [xs[0]] + Insert(x, xs[1..], le)
  }

  /** Stable: an element is put before the later ones that compare equal to it. */
  function Sort<T>(xs: seq<T>, le: (T, T) -> bool): (r: seq<T>)
    ensures multiset(r) == multiset(xs)
  {
    if xs == [] then []
    else
      assert xs == [xs[0]] + xs[1..];
      Insert(xs[0], Sort(xs[1..], le), le)
  }

  ghost predicate Sorted<T>(xs: seq<T>, le: (T, T) -> bool) {
    forall i, j :: 0 <= i < j < |xs| ==> le(xs[i], xs[j])
  }

  /** No two different members compare equal. */
  ghost predicate Distinguishes<T>(xs: seq<T>, le: (T, T) -> bool) {
    forall a, b :: a in xs && b in xs && le(a, b) && le(b, a) ==> a == b
  }

  lemma {:induction false} InsertSorts<T(!new)>(x: T, xs: seq<T>, le: (T, T) -> bool)
    requires TotalPreorder(le) && Sorted(xs, le)
    ensures Sorted(Insert(x, xs, le), le)
  {
    if xs != [] && !le(x, xs[0]) {
      var rest := Insert(x, xs[1..], le);
      InsertSorts(x, xs[1..], le);
      forall j | 0 <= j < |rest| ensures le(xs[0], rest[j]) {
        assert rest[j] in multiset(rest);
        assert rest[j] == x || rest[j] in xs[1..];
        if rest[j] != x {
          var k :| 0 <= k < |xs[1..]| && xs[1..][k] == rest[j];
          assert xs[k + 1] == rest[j];
        }
      }
    }
  }

  lemma {:induction false} SortSorts<T(!new)>(xs: seq<T>, le: (T, T) -> bool)
    requires TotalPreorder(le)
    ensures Sorted(Sort(xs, le), le)
  {
    if xs != [] {
      SortSorts(xs[1..], le);
      InsertSorts(xs[0], Sort(xs[1..], le), le);
    }
  }

  /** A list already in order is left alone, ties included. */
  lemma {:induction false} SortFixesSorted<T(!new)>(xs: seq<T>, le: (T, T) -> bool)
    requires Sorted(xs, le)
    ensures Sort(xs, le) == xs
  {
    if xs != [] {
      SortFixesSorted(xs[1..], le);
      assert xs == [xs[0]] + xs[1..];
      assert |xs| > 1 ==> le(xs[0], xs[1]);
    }
  }

  lemma SortIdempotent<T(!new)>(xs: seq<T>, le: (T, T) -> bool)
    requires TotalPreorder(le)
    ensures Sort(Sort(xs, le), le) == Sort(xs, le)
  {
    SortSorts(xs, le);
    SortFixesSorted(Sort(xs, le), le);
  }

  lemma SameFirst<T>(xs: seq<T>, ys: seq<T>, le: (T, T) -> bool)
    requires multiset(xs) == multiset(ys) && xs != [] && ys != []
    requires Sorted(xs, le) && Sorted(ys, le) && Distinguishes(xs, le)
    ensures xs[0] == ys[0]
  {
    assert xs[0] in multiset(ys) && ys[0] in multiset(xs);
    var i :| 0 <= i < |ys| && ys[i] == xs[0];
    var j :| 0 <= j < |xs| && xs[j] == ys[0];
    assert (i == 0 || le(ys[0], ys[i])) && (j == 0 || le(xs[0], xs[j]));
  }

  lemma DropFirst<T>(xs: seq<T>, le: (T, T) -> bool)
    requires xs != [] && Sorted(xs, le) && Distinguishes(xs, le)
    ensures multiset(xs[1..]) == multiset(xs) - multiset{xs[0]}
    ensures Sorted(xs[1..], le) && Distinguishes(xs[1..], le)
  {
    assert xs == [xs[0]] + xs[1..];
    forall a | a in xs[1..] ensures a in xs {}
  }

  lemma SameMembersDistinguished<T>(xs: seq<T>, ys: seq<T>, le: (T, T) -> bool)
    requires multiset(xs) == multiset(ys) && Distinguishes(xs, le)
    ensures Distinguishes(ys, le)
  {
    forall a | a in ys ensures a in xs {
      assert a in multiset(ys);
    }
  }

  lemma RestsMatch<T>(xs: seq<T>, ys: seq<T>)
    requires multiset(xs) == multiset(ys) && xs != [] && ys != [] && xs[0] == ys[0]
    ensures multiset(xs[1..]) == multiset(ys[1..])
  {
    assert xs == [xs[0]] + xs[1..] && ys == [ys[0]] + ys[1..];
    assert multiset(xs) == multiset{xs[0]} + multiset(xs[1..]);
    assert multiset(ys) == multiset{xs[0]} + multiset(ys[1..]);
    assert multiset(xs[1..]) == multiset(xs) - multiset{xs[0]};
  }

  /** Two sorted arrangements of the same members agree when the order tells the members apart. */
  lemma {:induction false} SortedUnique<T(!new)>(xs: seq<T>, ys: seq<T>, le: (T, T) -> bool)
    requires multiset(xs) == multiset(ys)
    requires Sorted(xs, le) && Sorted(ys, le) && Distinguishes(xs, le)
    ensures xs == ys
  {
    assert |xs| == |multiset(xs)| == |multiset(ys)| == |ys|;
    hide Sorted, Distinguishes;
    if xs != [] {
      SameFirst(xs, ys, le);
      SameMembersDistinguished(xs, ys, le);
      DropFirst(xs, le);
      DropFirst(ys, le);
      RestsMatch(xs, ys);
      SortedUnique(xs[1..], ys[1..], le);
      assert xs == [xs[0]] + xs[1..] && ys == [ys[0]] + ys[1..];
    }
  }

  lemma SortForgetsOrder<T(!new)>(xs: seq<T>, ys: seq<T>, le: (T, T) -> bool)
    requires TotalPreorder(le) && multiset(xs) == multiset(ys) && Distinguishes(xs, le)
    ensures Sort(xs, le) == Sort(ys, le)
  {
    SortSorts(xs, le);
    SortSorts(ys, le);
    forall a | a in Sort(xs, le) ensures a in xs {
      assert a in multiset(Sort(xs, le));
    }
    SortedUnique(Sort(xs, le), Sort(ys, le), le);
  }

  lemma InsertBehind<T>(x: T, s: seq<T>, le: (T, T) -> bool)
    requires s != [] && !le(x, s[0])
    ensures Insert(x, s, le) == [s[0]] + Insert(x, s[1..], le)
    ensures Insert(x, s, le)[0] == s[0] && Insert(x, s, le)[1..] == Insert(x, s[1..], le)
  {}

  lemma TiedInFront<T(!new)>(a: T, b: T, s: seq<T>, le: (T, T) -> bool)
    requires TotalPreorder(le) && le(a, b) && le(b, a) && a != b && (s == [] || le(a, s[0]))
    ensures Insert(a, Insert(b, s, le), le) != Insert(b, Insert(a, s, le), le)
  {
    assert s != [] ==> le(b, s[0]);
    var x, y := [b] + s, [a] + s;
    assert Insert(b, s, le) == x && Insert(a, s, le) == y;
    assert Insert(a, x, le)[0] == a && Insert(b, y, le)[0] == b;
  }

  lemma {:induction false} TiedInsertsDiffer<T(!new)>(a: T, b: T, s: seq<T>, le: (T, T) -> bool)
    requires TotalPreorder(le) && le(a, b) && le(b, a) && a != b
    ensures Insert(a, Insert(b, s, le), le) != Insert(b, Insert(a, s, le), le)
  {
    if s == [] || le(a, s[0]) {
      TiedInFront(a, b, s, le);
    } else {
      assert !le(b, s[0]);
      hide Insert, TotalPreorder;
      TiedInsertsDiffer(a, b, s[1..], le);
      InsertBehind(b, s, le);
      InsertBehind(a, s, le);
      InsertBehind(a, Insert(b, s, le), le);
      InsertBehind(b, Insert(a, s, le), le);
    }
  }

  lemma PutFirst<T>(xs: seq<T>, a: T, b: T) returns (rest: seq<T>)
    requires a in xs && b in xs && a != b
    ensures multiset([a, b] + rest) == multiset([b, a] + rest) == multiset(xs)
  {
    var ys := TakeOut(xs, a);
    assert b in multiset(xs);
    rest := TakeOut(ys, b);
  }

  lemma TakeOut<T>(xs: seq<T>, a: T) returns (rest: seq<T>)
    requires a in xs
    ensures multiset(xs) == multiset(rest) + multiset{a}
  {
    var i :| 0 <= i < |xs| && xs[i] == a;
    rest := xs[..i] + xs[i + 1..];
    assert xs == xs[..i] + [a] + xs[i + 1..];
  }

  lemma TieDependsOnOrder<T(!new)>(xs: seq<T>, le: (T, T) -> bool, a: T, b: T) returns (one: seq<T>, two: seq<T>)
    requires TotalPreorder(le)
    requires a in xs && b in xs && le(a, b) && le(b, a) && a != b
    ensures multiset(one) == multiset(two) == multiset(xs) && Sort(one, le) != Sort(two, le)
  {
    var rest := PutFirst(xs, a, b);
    one, two := [a, b] + rest, [b, a] + rest;
    assert one[1..] == [b] + rest && ([b] + rest)[1..] == rest;
    assert two[1..] == [a] + rest && ([a] + rest)[1..] == rest;
    TiedInsertsDiffer(a, b, Sort(rest, le), le);
  }

  /** Sorting gives one result for every arrangement of the members. */
  ghost predicate OrderForgotten<T(!new)>(xs: seq<T>, le: (T, T) -> bool) {
    forall ys :: multiset(ys) == multiset(xs) ==> Sort(ys, le) == Sort(xs, le)
  }

  /** ... exactly when no two different members compare equal. */
  lemma SortCanonicalIff<T(!new)>(xs: seq<T>, le: (T, T) -> bool)
    requires TotalPreorder(le)
    ensures OrderForgotten(xs, le) <==> Distinguishes(xs, le)
  {
    if Distinguishes(xs, le) {
      forall ys | multiset(ys) == multiset(xs) ensures Sort(ys, le) == Sort(xs, le) {
        SortForgetsOrder(xs, ys, le);
      }
    } else {
      var a, b :| a in xs && b in xs && le(a, b) && le(b, a) && a != b;
      var one, two := TieDependsOnOrder(xs, le, a, b);
      assert Sort(one, le) != Sort(xs, le) || Sort(two, le) != Sort(xs, le);
    }
  }

  // ---------- Lists paired member by member ----------

  /** A pairing with one list is a pairing with any rearrangement of it. */
  lemma {:induction false} Realign<T>(a: seq<T>, b: seq<T>, c: seq<T>, rel: (T, T) -> bool) returns (m: seq<T>)
    requires |a| == |b| && (forall k :: 0 <= k < |a| ==> rel(a[k], b[k])) && multiset(b) == multiset(c)
    ensures multiset(m) == multiset(a) && |m| == |c| && forall k :: 0 <= k < |c| ==> rel(m[k], c[k])
    decreases |c|
  {
    SameLength(b, c);
    if c == [] {
      m := [];
      assert a == [];
    } else {
      var k := Remove(c, b);
      var rest := Realign(a[..k] + a[k + 1..], b[..k] + b[k + 1..], c[1..], rel);
      m := [a[k]] + rest;
      assert a == a[..k] + [a[k]] + a[k + 1..];
      assert multiset(m) == multiset{a[k]} + multiset(a[..k] + a[k + 1..]);
    }
  }

  // ---------- Lists without repetition ----------

  /** Distinct members of `a` that all occur in `b` are at most as many. */
  lemma {:induction false} NoLonger<T>(a: seq<T>, b: seq<T>)
    requires forall i, j :: 0 <= i < j < |a| ==> a[i] != a[j]
    requires forall i :: 0 <= i < |a| ==> a[i] in b
    ensures |a| <= |b|
    decreases |a|
  {
    if a != [] {
      var n := |a| - 1;
      var k :| 0 <= k < |b| && b[k] == a[n];
      var rest := b[..k] + b[k + 1..];
      forall i | 0 <= i < n ensures a[..n][i] in rest {
        var j :| 0 <= j < |b| && b[j] == a[i];
        assert rest[if j < k then j else j - 1] == a[i];
      }
      NoLonger(a[..n], rest);
    }
  }

  /** When as many distinct members of `used` occur in `all`, nothing of `all` is left over. */
  lemma NoneLeft<T>(all: seq<T>, used: seq<T>)
    requires |all| == |used|
    requires forall i, j :: 0 <= i < j < |used| ==> used[i] != used[j]
    requires forall i :: 0 <= i < |used| ==> used[i] in all
    ensures forall i :: 0 <= i < |all| ==> all[i] in used
  {
    forall i | 0 <= i < |all| ensures all[i] in used {
      if all[i] !in used {
        var rest := all[..i] + all[i + 1..];
        forall m | 0 <= m < |used| ensures used[m] in rest {
          var j :| 0 <= j < |all| && all[j] == used[m];
          assert rest[if j < i then j else j - 1] == used[m];
        }
        NoLonger(used, rest);
      }
    }
  }

  /** Two lists without repetition that share their members are rearrangements. */
  lemma SameMembersRearranged<T>(a: seq<T>, b: seq<T>)
    requires forall i, j :: 0 <= i < j < |a| ==> a[i] != a[j]
    requires forall i, j :: 0 <= i < j < |b| ==> b[i] != b[j]
    requires (forall i :: 0 <= i < |a| ==> a[i] in b) && (forall i :: 0 <= i < |b| ==> b[i] in a)
    ensures multiset(a) == multiset(b)
  {
    forall x ensures multiset(a)[x] == multiset(b)[x] {
      OccursOnce(a, x);
      OccursOnce(b, x);
    }
  }

  lemma OccursOnce<T>(a: seq<T>, x: T)
    requires forall i, j :: 0 <= i < j < |a| ==> a[i] != a[j]
    ensures multiset(a)[x] == if x in a then 1 else 0
  {
    if x in a {
      var i :| 0 <= i < |a| && a[i] == x;
      assert a == a[..i] + [x] + a[i + 1..];
      assert x !in a[..i] && x !in a[i + 1..];
      assert multiset(a) == multiset(a[..i]) + multiset{x} + multiset(a[i + 1..]);
      assert multiset(a[..i])[x] == 0 && multiset(a[i + 1..])[x] == 0;
    } else {
      assert x !in multiset(a);
    }
  }

  lemma OccursTwice<T>(a: seq<T>, i: nat, j: nat)
    requires i < j < |a|
    ensures a[i] == a[j] ==> multiset(a)[a[i]] >= 2
  {
    assert a == a[..j] + [a[j]] + a[j + 1..];
    assert a[..j][i] == a[i];
    assert a[i] in multiset(a[..j]);
    assert multiset(a) == multiset(a[..j]) + multiset{a[j]} + multiset(a[j + 1..]);
  }

  /** A rearrangement of members with distinct names has distinct names. */
  lemma NamesKept<T, K>(a: seq<T>, b: seq<T>, name: T -> K)
    requires multiset(a) == multiset(b) && forall i, j :: 0 <= i < j < |a| ==> name(a[i]) != name(a[j])
    ensures forall i, j :: 0 <= i < j < |b| ==> name(b[i]) != name(b[j])
  {
    forall i, j | 0 <= i < j < |b| ensures name(b[i]) != name(b[j]) {
      assert b[i] in multiset(a) && b[j] in multiset(a);
      var x :| 0 <= x < |a| && a[x] == b[i];
      var y :| 0 <= y < |a| && a[y] == b[j];
      OccursTwice(b, i, j);
      OccursOnce(a, b[i]);
      assert x != y;
    }
  }

  // ---------- Lists mapped element by element ----------

  function Mapped<A, B>(f: A -> B, a: seq<A>): seq<B> {
    seq(|a|, i requires 0 <= i < |a| => f(a[i]))
  }

  lemma Remove<T>(a: seq<T>, b: seq<T>) returns (k: nat)
    requires multiset(a) == multiset(b) && a != []
    ensures k < |b| && b[k] == a[0]
    ensures multiset(a[1..]) == multiset(b[..k] + b[k + 1..])
  {
    assert a[0] in multiset(b);
    k :| 0 <= k < |b| && b[k] == a[0];
    assert a == [a[0]] + a[1..];
    assert b == b[..k] + [b[k]] + b[k + 1..];
    assert multiset(a) == multiset{a[0]} + multiset(a[1..]);
    assert multiset(b) == multiset{b[k]} + multiset(b[..k] + b[k + 1..]);
    assert multiset(a[1..]) == multiset(a) - multiset{a[0]};
    assert multiset(b[..k] + b[k + 1..]) == multiset(b) - multiset{b[k]};
  }

  lemma SameLength<T>(a: seq<T>, b: seq<T>)
    requires multiset(a) == multiset(b)
    ensures |a| == |b|
  {
    assert |a| == |multiset(a)| == |multiset(b)| == |b|;
  }

  lemma MappedSplit<A, B>(f: A -> B, a: seq<A>, k: nat)
    requires k < |a|
    ensures multiset(Mapped(f, a)) == multiset{f(a[k])} + multiset(Mapped(f, a[..k] + a[k + 1..]))
  {
    var mapped := Mapped(f, a);
    var rest := mapped[..k] + mapped[k + 1..];
    assert Mapped(f, a[..k] + a[k + 1..]) == rest;
    assert mapped == mapped[..k] + [mapped[k]] + mapped[k + 1..];
    assert multiset(mapped) == multiset{mapped[k]} + multiset(rest);
  }

  lemma {:induction false} MappedSame<A, B>(f: A -> B, a: seq<A>, b: seq<A>)
    requires multiset(a) == multiset(b)
    ensures multiset(Mapped(f, a)) == multiset(Mapped(f, b))
    decreases |a|
  {
    hide Mapped;
    SameLength(a, b);
    if a == [] {
      assert a == b;
    } else {
      var k := Remove(a, b);
      var rest := b[..k] + b[k + 1..];
      MappedSame(f, a[1..], rest);
      MappedSplit(f, a, 0);
      assert a[..0] + a[1..] == a[1..];
      MappedSplit(f, b, k);
    }
  }

  lemma {:induction false} InsertMapped<A, B>(f: A -> B, x: A, xs: seq<A>, leA: (A, A) -> bool, leB: (B, B) -> bool)
    requires forall a, b :: leB(f(a), f(b)) == leA(a, b)
    ensures Insert(f(x), Mapped(f, xs), leB) == Mapped(f, Insert(x, xs, leA))
  {
    if xs == [] {
      assert [f(x)] + Mapped(f, xs) == Mapped(f, [x] + xs);
    } else {
      assert Mapped(f, xs)[0] == f(xs[0]) && Mapped(f, xs)[1..] == Mapped(f, xs[1..]);
      if leA(x, xs[0]) {
        assert [f(x)] + Mapped(f, xs) == Mapped(f, [x] + xs);
      } else {
        InsertMapped(f, x, xs[1..], leA, leB);
        assert [f(xs[0])] + Mapped(f, Insert(x, xs[1..], leA)) == Mapped(f, [xs[0]] + Insert(x, xs[1..], leA));
      }
    }
  }

  /** Mapping after sorting is sorting after mapping, when the map keeps the order. */
  lemma {:induction false} SortMapped<A, B>(f: A -> B, xs: seq<A>, leA: (A, A) -> bool, leB: (B, B) -> bool)
    requires forall a, b :: leB(f(a), f(b)) == leA(a, b)
    ensures Sort(Mapped(f, xs), leB) == Mapped(f, Sort(xs, leA))
  {
    if xs == [] {
      assert Mapped(f, xs) == [];
    } else {
      assert Mapped(f, xs)[0] == f(xs[0]) && Mapped(f, xs)[1..] == Mapped(f, xs[1..]);
      SortMapped(f, xs[1..], leA, leB);
      InsertMapped(f, xs[0], Sort(xs[1..], leA), leA, leB);
    }
  }
}

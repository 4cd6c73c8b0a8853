/** JSON values as the repository's Python code sees them, and the paths that name their leaves. */
module Json {

  datatype Option<+T> = None | Some(value: T)

  /** Finite numbers keep Python's int/float distinction as a constructor tag. */
  datatype Json =
    | Null
    | Bool(b: bool)
    | Int(i: int)
    | Real(r: real)
    | Str(s: string)
    | Arr(items: seq<Json>)
    | Obj(members: map<string, Json>)

  function Get(j: Json, key: string): Option<Json> {
    if j.Obj? && key in j.members then Some(j.members[key]) else None
  }

  /** What Python can put in a set or use as a key. */
  predicate Hashable(j: Json) {
    !j.Arr? && !j.Obj?
  }

  // ---------- Python equality ----------

  predicate IsNumber(j: Json) {
    j.Bool? || j.Int? || j.Real?
  }

  function NumberOf(j: Json): real
    requires IsNumber(j)
  {
    match j
    case Bool(b) => if b then 1.0 else 0.0
    case Int(i) => i as real
    case Real(r) => r
  }

  /** Python's `==`: numbers compare by value across bool, int and float. */
  predicate PyEq(a: Json, b: Json) {
    if IsNumber(a) && IsNumber(b) then NumberOf(a) == NumberOf(b)
    else if a.Arr? && b.Arr? then
      |a.items| == |b.items| && forall k :: 0 <= k < |a.items| ==> PyEq(a.items[k], b.items[k])
    else if a.Obj? && b.Obj? then
      a.members.Keys == b.members.Keys && forall k :: k in a.members ==> PyEq(a.members[k], b.members[k])
    else a == b
  }

  lemma PyEqReflexive(a: Json)
    ensures PyEq(a, a)
  {}

  lemma PyEqSymmetric(a: Json, b: Json)
    requires PyEq(a, b)
    ensures PyEq(b, a)
  {}

  lemma {:induction false} PyEqTransitive(a: Json, b: Json, c: Json)
    requires PyEq(a, b) && PyEq(b, c)
    ensures PyEq(a, c)
  {
    if a.Arr? {
      forall k | 0 <= k < |a.items| ensures PyEq(a.items[k], c.items[k]) {
        PyEqTransitive(a.items[k], b.items[k], c.items[k]);
      }
    } else if a.Obj? {
      forall k | k in a.members ensures PyEq(a.members[k], c.members[k]) {
        PyEqTransitive(a.members[k], b.members[k], c.members[k]);
      }
    }
  }

  /** The value with every number written as its real value: what `==` can see. */
  ghost function Seen(j: Json): Json {
    match j
    case Bool(b) => Real(if b then 1.0 else 0.0)
    case Int(i) => Real(i as real)
    case Arr(items) => Arr(seq(|items|, k requires 0 <= k < |items| => Seen(items[k])))
    case Obj(members) => Obj(map k | k in members :: Seen(members[k]))
    case _ => j
  }

  /** Two values are equal exactly when they differ in nothing but how equal numbers are written. */
  lemma {:induction false} PyEqIff(a: Json, b: Json)
    ensures PyEq(a, b) <==> Seen(a) == Seen(b)
    decreases a, 1
  {
    if a.Arr? && b.Arr? {
      PyEqItems(a, b);
    } else if a.Obj? && b.Obj? {
      PyEqMembers(a, b);
    }
  }

  lemma {:induction false} PyEqItems(a: Json, b: Json)
    requires a.Arr? && b.Arr?
    ensures PyEq(a, b) <==> Seen(a) == Seen(b)
    decreases a, 0
  {
    var x, y := Seen(a).items, Seen(b).items;
    assert |x| == |a.items| && |y| == |b.items|;
    forall k | 0 <= k < |x| && k < |y| ensures PyEq(a.items[k], b.items[k]) <==> x[k] == y[k] {
      PyEqIff(a.items[k], b.items[k]);
    }
  }

  lemma {:induction false} PyEqMembers(a: Json, b: Json)
    requires a.Obj? && b.Obj?
    ensures PyEq(a, b) <==> Seen(a) == Seen(b)
    decreases a, 0
  {
    var x, y := Seen(a).members, Seen(b).members;
    assert x.Keys == a.members.Keys && y.Keys == b.members.Keys;
    forall k | k in a.members && k in b.members ensures PyEq(a.members[k], b.members[k]) <==> x[k] == y[k] {
      PyEqIff(a.members[k], b.members[k]);
    }
  }

  // ---------- Paths ----------

  datatype Seg = Key(name: string) | At(index: nat)

  type Path = seq<Seg>

  function ValueAt(j: Json, p: Path): Option<Json>
    decreases |p|
  {
    if p == [] then Some(j)
    else
      match p[0]
      case Key(name) => if j.Obj? && name in j.members then ValueAt(j.members[name], p[1..]) else None
      case At(index) => if j.Arr? && index < |j.items| then ValueAt(j.items[index], p[1..]) else None
  }

  /** Paths of the scalar leaves below `prefix`. */
  function ScalarLeaves(j: Json, prefix: Path): set<Path> {
    match j
    case Obj(m) => set k, q | k in m.Keys && q in ScalarLeaves(m[k], prefix + [Key(k)]) :: q
    case Arr(items) => set i: nat, q | i < |items| && q in ScalarLeaves(items[i], prefix + [At(i)]) :: q
    case _ => {prefix}
  }

  predicate Scalar(v: Option<Json>) {
    v.Some? && !v.value.Arr? && !v.value.Obj?
  }

  /** A leaf path leads to a scalar of the tree it was taken from. */
  lemma {:induction false} LeafLeadsToScalar(j: Json, prefix: Path, q: Path)
    requires q in ScalarLeaves(j, prefix)
    ensures prefix <= q && Scalar(ValueAt(j, q[|prefix|..]))
  {
    match j
    case Obj(m) =>
      var k :| k in m.Keys && q in ScalarLeaves(m[k], prefix + [Key(k)]);
      LeafLeadsToScalar(m[k], prefix + [Key(k)], q);
      assert q[|prefix|] == (prefix + [Key(k)])[|prefix|] == Key(k);
      assert q[|prefix|..][1..] == q[|prefix + [Key(k)]|..];
    case Arr(items) =>
      var i: nat :| i < |items| && q in ScalarLeaves(items[i], prefix + [At(i)]);
      LeafLeadsToScalar(items[i], prefix + [At(i)], q);
      assert q[|prefix|] == (prefix + [At(i)])[|prefix|] == At(i);
      assert q[|prefix|..][1..] == q[|prefix + [At(i)]|..];
    case _ =>
  }

  lemma {:induction false} ScalarIsLeaf(j: Json, prefix: Path, q: Path)
    requires Scalar(ValueAt(j, q))
    ensures prefix + q in ScalarLeaves(j, prefix)
    decreases |q|
  {
    if q == [] {
      assert prefix + q == prefix;
    } else {
      match q[0] {
        case Key(name) => ScalarIsLeaf(j.members[name], prefix + [q[0]], q[1..]);
        case At(index) => ScalarIsLeaf(j.items[index], prefix + [q[0]], q[1..]);
      }
      assert prefix + [q[0]] + q[1..] == prefix + q;
    }
  }

  /** The leaves of a tree are exactly the paths that lead to scalars. */
  lemma LeafIff(j: Json, prefix: Path, p: Path)
    ensures p in ScalarLeaves(j, prefix) <==> prefix <= p && Scalar(ValueAt(j, p[|prefix|..]))
  {
    if p in ScalarLeaves(j, prefix) {
      LeafLeadsToScalar(j, prefix, p);
    }
    if prefix <= p && Scalar(ValueAt(j, p[|prefix|..])) {
      ScalarIsLeaf(j, prefix, p[|prefix|..]);
      assert prefix + p[|prefix|..] == p;
    }
  }

  // ---------- Written paths ----------

  function Decimal(n: nat): (s: string)
    ensures |s| > 0 && forall k :: 0 <= k < |s| ==> '0' <= s[k] <= '9'
  {
    var digit := ('0' as int + n % 10) as char;
    if n < 10 then [digit] else Decimal(n / 10) + [digit]
  }

  function ParseDecimal(s: string): nat
    requires forall k :: 0 <= k < |s| ==> '0' <= s[k] <= '9'
  {
    if s == [] then 0 else ParseDecimal(s[..|s| - 1]) * 10 + (s[|s| - 1] as int - '0' as int)
  }

  lemma {:induction false} DecimalRoundTrip(n: nat)
    ensures ParseDecimal(Decimal(n)) == n
  {
    var s := Decimal(n);
    if n >= 10 {
      DecimalRoundTrip(n / 10);
      assert s[..|s| - 1] == Decimal(n / 10);
    } else {
      assert s[..0] == [];
    }
  }

  /** How `_scalar_leaf_paths` and the builders spell a path, starting at an object key. */
  function RenderTail(p: Path): string {
    if p == [] then ""
    else (match p[0] case Key(name) => "." + name case At(index) => "[" + Decimal(index) + "]") + RenderTail(p[1..])
  }

  function Render(p: Path): string
    requires p != [] && p[0].Key?
  {
    p[0].name + RenderTail(p[1..])
  }

  /** Names the path syntax can carry: nonempty and free of its two delimiters. */
  predicate Plain(name: string) {
    name != "" && forall k :: 0 <= k < |name| ==> name[k] != '.' && name[k] != '['
  }

  predicate Writable(p: Path) {
    forall k :: 0 <= k < |p| && p[k].Key? ==> Plain(p[k].name)
  }

  /** Length of the run of characters other than the two delimiters. */
  function NameRun(s: string): (n: nat)
    ensures n <= |s|
  {
    if s == "" || s[0] == '.' || s[0] == '[' then 0 else 1 + NameRun(s[1..])
  }

  function DigitRun(s: string): (n: nat)
    ensures n <= |s| && forall k :: 0 <= k < n ==> '0' <= s[k] <= '9'
  {
    if s != "" && '0' <= s[0] <= '9' then 1 + DigitRun(s[1..]) else 0
  }

  /** The tokens after the first one; characters that start no token are skipped. */
  function TokenizeTail(s: string): Path
    decreases |s|
  {
    if s == "" then []
    else if s[0] == '.' && NameRun(s[1..]) > 0 then
      var n := NameRun(s[1..]);
      [Key(s[1..1 + n])] + TokenizeTail(s[1 + n..])
    else if s[0] == '[' && DigitRun(s[1..]) > 0 && 1 + DigitRun(s[1..]) < |s| && s[1 + DigitRun(s[1..])] == ']' then
      var n := DigitRun(s[1..]);
      assert s[1..1 + n] == s[1..][..n];
      [At(ParseDecimal(s[1..1 + n]))] + TokenizeTail(s[2 + n..])
    else TokenizeTail(s[1..])
  }

  /** The segment scan of `_value_at_path`. */
  function Tokenize(s: string): Path {
    var n := NameRun(s);
    if n > 0 then [Key(s[..n])] + TokenizeTail(s[n..]) else TokenizeTail(s)
  }

  lemma {:induction false} NameRunStops(name: string, rest: string)
    requires forall k :: 0 <= k < |name| ==> name[k] != '.' && name[k] != '['
    requires rest == "" || rest[0] == '.' || rest[0] == '['
    ensures NameRun(name + rest) == |name|
  {
    if name == "" {
      assert name + rest == rest;
    } else {
      assert (name + rest)[1..] == name[1..] + rest;
      NameRunStops(name[1..], rest);
    }
  }

  lemma {:induction false} DigitRunStops(digits: string, rest: string)
    requires forall k :: 0 <= k < |digits| ==> '0' <= digits[k] <= '9'
    requires rest != "" && !('0' <= rest[0] <= '9')
    ensures DigitRun(digits + rest) == |digits|
  {
    if digits == "" {
      assert digits + rest == rest;
    } else {
      assert (digits + rest)[1..] == digits[1..] + rest;
      DigitRunStops(digits[1..], rest);
    }
  }

  lemma TailStart(p: Path)
    ensures RenderTail(p) == "" || RenderTail(p)[0] == '.' || RenderTail(p)[0] == '['
  {}

  lemma KeyToken(name: string, rest: string)
    requires Plain(name)
    requires rest == "" || rest[0] == '.' || rest[0] == '['
    ensures TokenizeTail("." + name + rest) == [Key(name)] + TokenizeTail(rest)
  {
    var s := "." + name + rest;
    NameRunStops(name, rest);
    assert s == "." + (name + rest) && s[1..] == name + rest;
    assert s[1..1 + |name|] == name && s[1 + |name|..] == rest;
  }

  lemma IndexToken(index: nat, rest: string)
    ensures TokenizeTail("[" + Decimal(index) + "]" + rest) == [At(index)] + TokenizeTail(rest)
  {
    var digits := Decimal(index);
    var s := "[" + digits + "]" + rest;
    DigitRunStops(digits, "]" + rest);
    DecimalRoundTrip(index);
    assert s[1..] == digits + ("]" + rest);
    assert s[1..1 + |digits|] == digits && s[2 + |digits|..] == rest;
    assert s[1 + |digits|] == ']';
  }

  lemma {:induction false} TailRoundTrip(p: Path)
    requires Writable(p)
    ensures TokenizeTail(RenderTail(p)) == p
  {
    if p != [] {
      TailStart(p[1..]);
      assert forall k :: 0 <= k < |p[1..]| ==> p[1..][k] == p[k + 1];
      TailRoundTrip(p[1..]);
      match p[0] {
        case Key(name) =>
          KeyToken(name, RenderTail(p[1..]));
        case At(index) =>
          IndexToken(index, RenderTail(p[1..]));
          assert RenderTail(p) == "[" + Decimal(index) + "]" + RenderTail(p[1..]);
      }
    }
  }

  /** Reading a written path back gives the path, so two different paths are never written alike. */
  lemma PathRoundTrip(p: Path)
    requires p != [] && p[0].Key? && Writable(p)
    ensures Tokenize(Render(p)) == p
  {
    var name, rest := p[0].name, RenderTail(p[1..]);
    TailStart(p[1..]);
    NameRunStops(name, rest);
    assert forall k :: 0 <= k < |p[1..]| ==> p[1..][k] == p[k + 1];
    TailRoundTrip(p[1..]);
    assert (name + rest)[..|name|] == name && (name + rest)[|name|..] == rest;
    assert p == [p[0]] + p[1..];
  }
}

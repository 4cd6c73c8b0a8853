/** The logical table fingerprint: what it hashes, that the framing can be read back, and which tables share it. */
module Fingerprint {
  import opened Json
  import opened Ordering

  type Byte = b: nat | b < 256

  /** Library text and hash operations: newline folding, NFC and strip together; header normalization;
      UTF-8; SHA-256 in hexadecimal. */
  datatype TextRules = TextRules(clean: string -> string, header: string -> string, utf8: string -> seq<Byte>, digest: seq<Byte> -> string)

  /** UTF-8 is injective, and SHA-256 is taken to be. */
  ghost predicate Faithful(rules: TextRules) {
    && (forall a, b :: rules.utf8(a) == rules.utf8(b) ==> a == b)
    && (forall a, b :: rules.digest(a) == rules.digest(b) ==> a == b)
  }

  datatype GridCell = GridCell(row: int, column: int, text: string)

  /** A cell that is not blank, its text normalized. */
  datatype Entry = Entry(row: int, column: int, text: string)

  // ---------- What is hashed ----------

  function NormalText(rules: TextRules, headerRow: int, cell: GridCell): string {
    if cell.row == headerRow then rules.header(rules.clean(cell.text)) else rules.clean(cell.text)
  }

  predicate Positive(cells: seq<GridCell>) {
    forall k :: 0 <= k < |cells| ==> cells[k].row > 0 && cells[k].column > 0
  }

  /** The nonblank cells with their normalized texts. */
  function Normal(rules: TextRules, headerRow: int, cells: seq<GridCell>): (r: seq<Entry>)
    requires Positive(cells)
    ensures forall k :: 0 <= k < |r| ==> r[k].row > 0 && r[k].column > 0
  {
    if cells == [] then []
    else
      var cell := cells[|cells| - 1];
      var text := NormalText(rules, headerRow, cell);
      Normal(rules, headerRow, cells[..|cells| - 1]) + (if text == "" then [] else [Entry(cell.row, cell.column, text)])
  }

  function MinOf(values: seq<int>): (m: int)
    requires values != []
    ensures m in values && forall k :: 0 <= k < |values| ==> m <= values[k]
  {
    if |values| == 1 then values[0]
    else
      var rest := MinOf(values[1..]);
      assert forall k :: 0 < k < |values| ==> values[k] == values[1..][k - 1];
      if values[0] <= rest then values[0] else rest
  }

  function RowsOf(cells: seq<Entry>): (r: seq<int>)
    ensures |r| == |cells| && forall k :: 0 <= k < |r| ==> r[k] == cells[k].row
  {
    seq(|cells|, k requires 0 <= k < |cells| => cells[k].row)
  }

  function ColumnsOf(cells: seq<Entry>): (r: seq<int>)
    ensures |r| == |cells| && forall k :: 0 <= k < |r| ==> r[k] == cells[k].column
  {
    seq(|cells|, k requires 0 <= k < |cells| => cells[k].column)
  }

  function MovedBy(cells: seq<Entry>, rows: int, columns: int): seq<Entry> {
    Mapped((e: Entry) => Entry(e.row + rows, e.column + columns, e.text), cells)
  }

  /** The grid moved so that its first row and column are 1. */
  function Shifted(cells: seq<Entry>): seq<Entry> {
    if cells == [] then []
    else MovedBy(cells, 1 - MinOf(RowsOf(cells)), 1 - MinOf(ColumnsOf(cells)))
  }

  /** The cells of `after` are those of `before`, all moved alike. */
  ghost predicate MovedAlike(before: seq<Entry>, after: seq<Entry>, rows: int, columns: int) {
    && |after| == |before|
    && forall k :: 0 <= k < |after| ==>
         after[k].row == before[k].row + rows && after[k].column == before[k].column + columns && after[k].text == before[k].text
  }

  /** Row 1 and column 1 are the first that hold a cell. */
  ghost predicate AtOrigin(cells: seq<Entry>) {
    && (forall k :: 0 <= k < |cells| ==> cells[k].row >= 1 && cells[k].column >= 1)
    && (exists k :: 0 <= k < |cells| && cells[k].row == 1) && (exists k :: 0 <= k < |cells| && cells[k].column == 1)
  }

  /** Shifting moves the whole grid to the origin and keeps its shape and texts. */
  lemma ShiftedToOrigin(cells: seq<Entry>)
    requires cells != []
    ensures AtOrigin(Shifted(cells)) && exists rows, columns :: MovedAlike(cells, Shifted(cells), rows, columns)
  {
    var rows, columns := 1 - MinOf(RowsOf(cells)), 1 - MinOf(ColumnsOf(cells));
    var shifted := Shifted(cells);
    assert MovedAlike(cells, shifted, rows, columns);
    var i :| 0 <= i < |cells| && RowsOf(cells)[i] == MinOf(RowsOf(cells));
    var j :| 0 <= j < |cells| && ColumnsOf(cells)[j] == MinOf(ColumnsOf(cells));
    assert shifted[i].row == 1 && shifted[j].column == 1;
    forall k | 0 <= k < |shifted| ensures shifted[k].row >= 1 && shifted[k].column >= 1 {
      assert RowsOf(cells)[k] == cells[k].row && ColumnsOf(cells)[k] == cells[k].column;
    }
  }

  /** Tuple order on row, column, text. */
  predicate EntryLe(a: Entry, b: Entry) {
    a.row < b.row || (a.row == b.row && (a.column < b.column || (a.column == b.column && TextLe(a.text, b.text))))
  }

  lemma EntryOrder()
    ensures TotalPreorder(EntryLe)
    ensures forall a, b :: EntryLe(a, b) && EntryLe(b, a) ==> a == b
  {
    forall a: Entry, b: Entry ensures (EntryLe(a, b) || EntryLe(b, a)) && (EntryLe(a, b) && EntryLe(b, a) ==> a == b) {
      TextTotal(a.text, b.text);
    }
    forall a: Entry, b: Entry, c: Entry | EntryLe(a, b) && EntryLe(b, c) ensures EntryLe(a, c) {
      if TextLe(a.text, b.text) && TextLe(b.text, c.text) {
        TextTransitive(a.text, b.text, c.text);
      }
    }
  }

  // ---------- Framing ----------

  const LIMIT: nat := 0x1_0000_0000_0000_0000

  function Power(width: nat): (p: nat)
    ensures p > 0
  {
    if width == 0 then 1 else 256 * Power(width - 1)
  }

  /** `n.to_bytes(width, "big")` for an `n` that fits. */
  function BigEndian(n: int, width: nat): (r: seq<Byte>)
    ensures |r| == width
    decreases width
  {
    if width == 0 then [] else BigEndian(n / 256, width - 1) + [n % 256]
  }

  function Number(bytes: seq<Byte>): nat {
    if bytes == [] then 0 else Number(bytes[..|bytes| - 1]) * 256 + bytes[|bytes| - 1]
  }

  lemma {:induction false} NumberRoundTrip(n: nat, width: nat)
    requires n < Power(width)
    ensures Number(BigEndian(n, width)) == n
  {
    if width > 0 {
      NumberRoundTrip(n / 256, width - 1);
      var r := BigEndian(n, width);
      assert r[..|r| - 1] == BigEndian(n / 256, width - 1);
    }
  }

  lemma EightBytes()
    ensures Power(8) == LIMIT
  {
    assert Power(2) == 65536 && Power(4) == 256 * 256 * Power(2) && Power(6) == 256 * 256 * Power(4);
  }

  predicate Fits(rules: TextRules, cell: Entry) {
    0 <= cell.row < LIMIT && 0 <= cell.column < LIMIT && |rules.utf8(cell.text)| < LIMIT
  }

  predicate AllFit(rules: TextRules, cells: seq<Entry>) {
    forall k :: 0 <= k < |cells| ==> Fits(rules, cells[k])
  }

  function Framed(rules: TextRules, cell: Entry): seq<Byte> {
    var encoded := rules.utf8(cell.text);
    BigEndian(cell.row, 8) + BigEndian(cell.column, 8) + BigEndian(|encoded|, 8) + encoded
  }

  function Frames(rules: TextRules, cells: seq<Entry>): seq<Byte> {
    if cells == [] then [] else Frames(rules, cells[..|cells| - 1]) + Framed(rules, cells[|cells| - 1])
  }

  /** One frame off the front: row, column, encoded text, rest. */
  function TakeFrame(bytes: seq<Byte>): Option<(nat, nat, seq<Byte>, seq<Byte>)> {
    if |bytes| < 24 then None
    else
      var length := Number(bytes[16..24]);
      if |bytes| < 24 + length then None
      else Some((Number(bytes[..8]), Number(bytes[8..16]), bytes[24..24 + length], bytes[24 + length..]))
  }

  lemma FrameTaken(rules: TextRules, cell: Entry, rest: seq<Byte>)
    requires Fits(rules, cell)
    ensures TakeFrame(Framed(rules, cell) + rest) == Some((cell.row, cell.column, rules.utf8(cell.text), rest))
  {
    var encoded := rules.utf8(cell.text);
    EightBytes();
    NumberRoundTrip(cell.row, 8);
    NumberRoundTrip(cell.column, 8);
    NumberRoundTrip(|encoded|, 8);
    hide Number, BigEndian, Power;
    var bytes := Framed(rules, cell) + rest;
    assert bytes[..8] == BigEndian(cell.row, 8);
    assert bytes[8..16] == BigEndian(cell.column, 8);
    assert bytes[16..24] == BigEndian(|encoded|, 8);
    assert bytes[24..24 + |encoded|] == encoded;
    assert bytes[24 + |encoded|..] == rest;
  }

  lemma {:induction false} FirstFrame(rules: TextRules, cells: seq<Entry>)
    requires cells != []
    ensures Frames(rules, cells) == Framed(rules, cells[0]) + Frames(rules, cells[1..])
  {
    hide Framed;
    var n := |cells| - 1;
    if n > 0 {
      FirstFrame(rules, cells[..n]);
      assert cells[..n][1..] == cells[1..][..n - 1];
      assert cells[1..][|cells[1..]| - 1] == cells[n];
    }
  }

  /** The hashed bytes can be read in one way only. */
  lemma {:induction false} FramesInjective(rules: TextRules, a: seq<Entry>, b: seq<Entry>)
    requires Faithful(rules) && AllFit(rules, a) && AllFit(rules, b)
    requires Frames(rules, a) == Frames(rules, b)
    ensures a == b
    decreases |a| + |b|
  {
    hide Framed, Faithful, Fits;
    if a != [] && b != [] {
      FirstFrame(rules, a);
      FirstFrame(rules, b);
      FrameTaken(rules, a[0], Frames(rules, a[1..]));
      FrameTaken(rules, b[0], Frames(rules, b[1..]));
      SameText(rules, a[0].text, b[0].text);
      FramesInjective(rules, a[1..], b[1..]);
      assert a == [a[0]] + a[1..] && b == [b[0]] + b[1..];
    } else if a != [] {
      NotEmpty(rules, a);
    } else if b != [] {
      NotEmpty(rules, b);
    }
  }

  lemma SameText(rules: TextRules, a: string, b: string)
    requires Faithful(rules) && rules.utf8(a) == rules.utf8(b)
    ensures a == b
  {}

  lemma NotEmpty(rules: TextRules, cells: seq<Entry>)
    requires cells != []
    ensures Frames(rules, cells) != []
  {
    FirstFrame(rules, cells);
    assert |Framed(rules, cells[0])| >= 24;
  }

  // ---------- The fingerprint ----------

  const TAG: string := "qualityci-logical-table-v1"

  /** The sorted, shifted cells: what the fingerprint stands for. */
  function Grid(rules: TextRules, headerRow: int, cells: seq<GridCell>): seq<Entry>
    requires Positive(cells)
  {
    Sort(Shifted(Normal(rules, headerRow, cells)), EntryLe)
  }

  ghost predicate Printable(rules: TextRules, headerRow: int, cells: seq<GridCell>) {
    Positive(cells) && AllFit(rules, Grid(rules, headerRow, cells))
  }

  method Normalize(rules: TextRules, headerRow: int, cells: seq<GridCell>) returns (r: Option<seq<Entry>>)
    ensures r.Some? <==> Positive(cells)
    ensures r.Some? ==> r.value == Normal(rules, headerRow, cells)
  {
    var normalized: seq<Entry> := [];
    var k := 0;
    while k < |cells|
      invariant 0 <= k <= |cells| && Positive(cells[..k])
      invariant normalized == Normal(rules, headerRow, cells[..k])
    {
      var cell := cells[k];
      if cell.row <= 0 || cell.column <= 0 {
        return None;
      }
      var text := rules.clean(cell.text);
      if cell.row == headerRow {
        text := rules.header(text);
      }
      assert cells[..k + 1][..k] == cells[..k] && Positive(cells[..k + 1]);
      if text != "" {
        normalized := normalized + [Entry(cell.row, cell.column, text)];
      }
      k := k + 1;
    }
    assert cells[..k] == cells;
    return Some(normalized);
  }

  method WriteFrames(rules: TextRules, tag: seq<Byte>, ordered: seq<Entry>) returns (r: Option<seq<Byte>>)
    ensures r.Some? <==> AllFit(rules, ordered)
    ensures r.Some? ==> r.value == tag + Frames(rules, ordered)
  {
    hide Framed;
    var bytes := tag;
    var k := 0;
    while k < |ordered|
      invariant 0 <= k <= |ordered| && AllFit(rules, ordered[..k])
      invariant bytes == tag + Frames(rules, ordered[..k])
    {
      if !Fits(rules, ordered[k]) {
        return None;
      }
      OneMoreFrame(rules, ordered, k);
      bytes := bytes + Framed(rules, ordered[k]);
      k := k + 1;
    }
    assert ordered[..k] == ordered;
    return Some(bytes);
  }

  lemma OneMoreFrame(rules: TextRules, ordered: seq<Entry>, k: nat)
    requires k < |ordered|
    ensures Frames(rules, ordered[..k + 1]) == Frames(rules, ordered[..k]) + Framed(rules, ordered[k])
  {
    assert ordered[..k + 1][..k] == ordered[..k];
  }

  /** `_logical_table_fingerprint`: None where it raises. */
  method LogicalTableFingerprint(rules: TextRules, tag: seq<Byte>, headerRow: int, cells: seq<GridCell>) returns (r: Option<string>)
    ensures r.Some? <==> Printable(rules, headerRow, cells)
    ensures r.Some? ==> r.value == rules.digest(tag + Frames(rules, Grid(rules, headerRow, cells)))
  {
    hide Normal, Shifted, EntryLe, Frames, AllFit;
    var normalized := Normalize(rules, headerRow, cells);
    if normalized.None? {
      return None;
    }
    var bytes := WriteFrames(rules, tag, Sort(Shifted(normalized.value), EntryLe));
    if bytes.None? {
      return None;
    }
    return Some(rules.digest(bytes.value));
  }

  ghost function Print(rules: TextRules, tag: seq<Byte>, headerRow: int, cells: seq<GridCell>): string
    requires Positive(cells)
  {
    rules.digest(tag + Frames(rules, Grid(rules, headerRow, cells)))
  }

  /** Two tables share a fingerprint exactly when their normalized, origin-shifted nonblank cells agree. */
  lemma SamePrintIff(rules: TextRules, tag: seq<Byte>, h: int, a: seq<GridCell>, g: int, b: seq<GridCell>)
    requires Faithful(rules) && Printable(rules, h, a) && Printable(rules, g, b)
    ensures Print(rules, tag, h, a) == Print(rules, tag, g, b) <==>
      multiset(Shifted(Normal(rules, h, a))) == multiset(Shifted(Normal(rules, g, b)))
  {
    var x, y := Shifted(Normal(rules, h, a)), Shifted(Normal(rules, g, b));
    EntryOrder();
    hide Shifted, Normal, Frames, EntryLe;
    if Print(rules, tag, h, a) == Print(rules, tag, g, b) {
      var p, q := tag + Frames(rules, Grid(rules, h, a)), tag + Frames(rules, Grid(rules, g, b));
      assert p == q;
      assert p[|tag|..] == Frames(rules, Grid(rules, h, a)) && q[|tag|..] == Frames(rules, Grid(rules, g, b));
      FramesInjective(rules, Grid(rules, h, a), Grid(rules, g, b));
    }
    if multiset(x) == multiset(y) {
      SortForgetsOrder(x, y, EntryLe);
    }
  }

  // ---------- What never changes it ----------

  lemma {:induction false} NormalConcat(rules: TextRules, h: int, a: seq<GridCell>, b: seq<GridCell>)
    requires Positive(a) && Positive(b)
    ensures Positive(a + b) && Normal(rules, h, a + b) == Normal(rules, h, a) + Normal(rules, h, b)
  {
    hide NormalText;
    if b == [] {
      assert a + b == a;
    } else {
      var n := |b| - 1;
      NormalConcat(rules, h, a, b[..n]);
      assert (a + b)[..|a + b| - 1] == a + b[..n];
      assert (a + b)[|a + b| - 1] == b[n];
    }
  }

  lemma NormalSplit(rules: TextRules, h: int, cells: seq<GridCell>, k: nat)
    requires Positive(cells) && k < |cells|
    ensures Positive([cells[k]]) && Positive(cells[..k] + cells[k + 1..])
    ensures multiset(Normal(rules, h, cells))
      == multiset(Normal(rules, h, [cells[k]])) + multiset(Normal(rules, h, cells[..k] + cells[k + 1..]))
  {
    hide Normal, NormalText;
    var before, one, after := cells[..k], [cells[k]], cells[k + 1..];
    NormalConcat(rules, h, before, after);
    NormalConcat(rules, h, one, after);
    NormalConcat(rules, h, before, one + after);
    assert cells == before + (one + after);
    hide Positive;
  }

  /** Listing the cells in another order keeps the same normalized cells. */
  lemma {:induction false} NormalForgetsOrder(rules: TextRules, h: int, a: seq<GridCell>, b: seq<GridCell>)
    requires multiset(a) == multiset(b) && Positive(a) && Positive(b)
    ensures multiset(Normal(rules, h, a)) == multiset(Normal(rules, h, b))
    decreases |a|
  {
    hide Normal, NormalText, Positive;
    if a == [] {
      SameLength(a, b);
    } else {
      var k := Remove(a, b);
      NormalSplit(rules, h, a, 0);
      assert a[..0] + a[1..] == a[1..];
      NormalSplit(rules, h, b, k);
      NormalForgetsOrder(rules, h, a[1..], b[..k] + b[k + 1..]);
    }
  }

  lemma SameMin(a: seq<int>, b: seq<int>)
    requires a != [] && b != [] && (forall x :: x in a ==> x in b) && (forall x :: x in b ==> x in a)
    ensures MinOf(a) == MinOf(b)
  {
    hide MinOf;
    assert MinOf(a) in b && MinOf(b) in a;
    var i :| 0 <= i < |b| && b[i] == MinOf(a);
    var j :| 0 <= j < |a| && a[j] == MinOf(b);
  }

  lemma SameOrigin(a: seq<Entry>, b: seq<Entry>)
    requires multiset(a) == multiset(b) && a != [] && b != []
    ensures MinOf(RowsOf(a)) == MinOf(RowsOf(b)) && MinOf(ColumnsOf(a)) == MinOf(ColumnsOf(b))
  {
    hide MinOf;
    forall e ensures e in a <==> e in b {
      assert e in a <==> e in multiset(a);
      assert e in b <==> e in multiset(b);
    }
    CoordinatesWithin(a, b);
    CoordinatesWithin(b, a);
    SameMin(RowsOf(a), RowsOf(b));
    SameMin(ColumnsOf(a), ColumnsOf(b));
  }

  lemma CoordinatesWithin(a: seq<Entry>, b: seq<Entry>)
    requires forall e :: e in a ==> e in b
    ensures forall x :: x in RowsOf(a) ==> x in RowsOf(b)
    ensures forall x :: x in ColumnsOf(a) ==> x in ColumnsOf(b)
  {
    forall i | 0 <= i < |a| ensures RowsOf(a)[i] in RowsOf(b) && ColumnsOf(a)[i] in ColumnsOf(b) {
      assert a[i] in b;
      var j :| 0 <= j < |b| && b[j] == a[i];
      assert RowsOf(b)[j] == RowsOf(a)[i] && ColumnsOf(b)[j] == ColumnsOf(a)[i];
    }
  }

  lemma ShiftForgetsOrder(a: seq<Entry>, b: seq<Entry>)
    requires multiset(a) == multiset(b)
    ensures multiset(Shifted(a)) == multiset(Shifted(b))
  {
    hide MinOf, RowsOf, ColumnsOf, Mapped;
    SameLength(a, b);
    if a != [] {
      SameOrigin(a, b);
      var dr, dc := 1 - MinOf(RowsOf(a)), 1 - MinOf(ColumnsOf(a));
      MappedSame((e: Entry) => Entry(e.row + dr, e.column + dc, e.text), a, b);
      assert multiset(MovedBy(a, dr, dc)) == multiset(MovedBy(b, dr, dc));
    }
  }

  /** Reordering the cells never changes the fingerprint. */
  lemma ReorderingKeepsPrint(rules: TextRules, tag: seq<Byte>, h: int, a: seq<GridCell>, b: seq<GridCell>)
    requires Positive(a) && multiset(a) == multiset(b)
    ensures Positive(b) && Print(rules, tag, h, a) == Print(rules, tag, h, b)
  {
    forall k | 0 <= k < |b| ensures b[k].row > 0 && b[k].column > 0 {
      assert b[k] in multiset(a);
    }
    NormalForgetsOrder(rules, h, a, b);
    ShiftForgetsOrder(Normal(rules, h, a), Normal(rules, h, b));
    EntryOrder();
    hide Shifted, Normal, EntryLe;
    SortForgetsOrder(Shifted(Normal(rules, h, a)), Shifted(Normal(rules, h, b)), EntryLe);
  }

  /** Adding cells that normalize to nothing never changes the fingerprint. */
  lemma BlanksKeepPrint(rules: TextRules, tag: seq<Byte>, h: int, a: seq<GridCell>, blanks: seq<GridCell>)
    requires Positive(a) && Positive(blanks)
    requires forall k :: 0 <= k < |blanks| ==> NormalText(rules, h, blanks[k]) == ""
    ensures Positive(a + blanks) && Print(rules, tag, h, a + blanks) == Print(rules, tag, h, a)
  {
    BlanksVanish(rules, h, a, blanks);
  }

  lemma {:induction false} BlanksVanish(rules: TextRules, h: int, a: seq<GridCell>, blanks: seq<GridCell>)
    requires Positive(a) && Positive(blanks)
    requires forall k :: 0 <= k < |blanks| ==> NormalText(rules, h, blanks[k]) == ""
    ensures Positive(a + blanks) && Normal(rules, h, a + blanks) == Normal(rules, h, a)
  {
    hide Normal, NormalText;
    if blanks == [] {
      assert a + blanks == a;
    } else {
      var n := |blanks| - 1;
      assert Positive(blanks[..n]) && Positive([blanks[n]]);
      BlanksVanish(rules, h, a, blanks[..n]);
      BlankLast(rules, h, a + blanks[..n], blanks[n]);
      assert a + blanks == (a + blanks[..n]) + [blanks[n]];
    }
  }

  lemma BlankLast(rules: TextRules, h: int, cells: seq<GridCell>, blank: GridCell)
    requires Positive(cells) && Positive([blank]) && NormalText(rules, h, blank) == ""
    ensures Positive(cells + [blank]) && Normal(rules, h, cells + [blank]) == Normal(rules, h, cells)
  {
    assert Positive(cells + [blank]);
    assert (cells + [blank])[..|cells|] == cells;
  }

  function MovedGrid(cells: seq<GridCell>, dr: int, dc: int): (r: seq<GridCell>)
    ensures |r| == |cells| && forall k :: 0 <= k < |r| ==> r[k] == GridCell(cells[k].row + dr, cells[k].column + dc, cells[k].text)
  {
    seq(|cells|, k requires 0 <= k < |cells| => GridCell(cells[k].row + dr, cells[k].column + dc, cells[k].text))
  }

  lemma {:induction false} NormalMoves(rules: TextRules, h: int, cells: seq<GridCell>, dr: int, dc: int)
    requires Positive(cells) && Positive(MovedGrid(cells, dr, dc))
    ensures |Normal(rules, h + dr, MovedGrid(cells, dr, dc))| == |Normal(rules, h, cells)|
    ensures forall k :: 0 <= k < |Normal(rules, h, cells)| ==>
      var e := Normal(rules, h, cells)[k];
      e.row + dr > 0 && e.column + dc > 0 && Normal(rules, h + dr, MovedGrid(cells, dr, dc))[k] == Entry(e.row + dr, e.column + dc, e.text)
  {
    if cells != [] {
      var n := |cells| - 1;
      assert MovedGrid(cells, dr, dc)[..n] == MovedGrid(cells[..n], dr, dc);
      assert Positive(MovedGrid(cells[..n], dr, dc)) by {
        forall k | 0 <= k < n ensures MovedGrid(cells[..n], dr, dc)[k] == MovedGrid(cells, dr, dc)[k] {}
      }
      NormalMoves(rules, h, cells[..n], dr, dc);
      NormalStep(rules, h, cells);
      NormalStep(rules, h + dr, MovedGrid(cells, dr, dc));
      assert NormalText(rules, h + dr, MovedGrid(cells, dr, dc)[n]) == NormalText(rules, h, cells[n]);
      hide Normal, NormalText, Positive;
    }
  }

  lemma NormalStep(rules: TextRules, h: int, cells: seq<GridCell>)
    requires cells != [] && Positive(cells)
    ensures var n := |cells| - 1; var text := NormalText(rules, h, cells[n]);
      Normal(rules, h, cells) == Normal(rules, h, cells[..n]) + (if text == "" then [] else [Entry(cells[n].row, cells[n].column, text)])
  {}

  lemma MinMoves(a: seq<int>, b: seq<int>, d: int)
    requires a != [] && |a| == |b| && forall k :: 0 <= k < |a| ==> b[k] == a[k] + d
    ensures MinOf(b) == MinOf(a) + d
  {
    hide MinOf;
    var i :| 0 <= i < |a| && a[i] == MinOf(a);
    var j :| 0 <= j < |b| && b[j] == MinOf(b);
    assert MinOf(b) <= b[i] && MinOf(a) <= a[j];
  }

  /** Moving the whole grid together with its header row never changes the fingerprint. */
  lemma MovingKeepsPrint(rules: TextRules, tag: seq<Byte>, h: int, cells: seq<GridCell>, dr: int, dc: int)
    requires Positive(cells) && Positive(MovedGrid(cells, dr, dc))
    ensures Print(rules, tag, h + dr, MovedGrid(cells, dr, dc)) == Print(rules, tag, h, cells)
  {
    NormalMoves(rules, h, cells, dr, dc);
    hide Normal, MinOf, Positive, Shifted, EntryLe, Sort;
    SameShape(Normal(rules, h, cells), Normal(rules, h + dr, MovedGrid(cells, dr, dc)), dr, dc);
  }

  lemma SameShape(a: seq<Entry>, b: seq<Entry>, dr: int, dc: int)
    requires |a| == |b|
    requires forall k :: 0 <= k < |a| ==>
      a[k].row + dr > 0 && a[k].column + dc > 0 && b[k] == Entry(a[k].row + dr, a[k].column + dc, a[k].text)
    ensures Shifted(a) == Shifted(b)
  {
    hide MinOf;
    if a != [] {
      MinMoves(RowsOf(a), RowsOf(b), dr);
      MinMoves(ColumnsOf(a), ColumnsOf(b), dc);
      assert MovedBy(a, 1 - MinOf(RowsOf(a)), 1 - MinOf(ColumnsOf(a))) == MovedBy(b, 1 - MinOf(RowsOf(b)), 1 - MinOf(ColumnsOf(b)));
    }
  }
}

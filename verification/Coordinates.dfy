/** Spreadsheet coordinates: bijective base-26 columns, sheet locators, and the cell loop that relies on both. */
module Coordinates {
  import opened Json

  const MAX_ROW := 1048576
  const MAX_COLUMN := 16384

  // ---------- Columns ----------

  predicate Letter(c: char) {
    'A' <= c <= 'Z'
  }

  predicate Letters(s: string) {
    forall k :: 0 <= k < |s| ==> Letter(s[k])
  }

  function UpperChar(c: char): (u: char)
    ensures !('a' <= u <= 'z')
  {
    if 'a' <= c <= 'z' then (c as int - 32) as char else c
  }

  /** `upper()` on ASCII text. */
  function Upper(s: string): (r: string)
    ensures |r| == |s| && forall k :: 0 <= k < |s| ==> r[k] == UpperChar(s[k])
  {
    seq(|s|, k requires 0 <= k < |s| => UpperChar(s[k]))
  }

  /** No ASCII lower-case letter, as after Python's `upper()`. */
  predicate NoLower(s: string) {
    forall k :: 0 <= k < |s| ==> !('a' <= s[k] <= 'z')
  }

  lemma UpperIsFixed(s: string)
    requires NoLower(s)
    ensures Upper(s) == s
  {}

  /** The letters of a column number, most significant first. */
  function Label(n: nat): (s: string)
    ensures Letters(s) && (s == "" <==> n == 0)
  {
    if n == 0 then "" else Label((n - 1) / 26) + [(65 + (n - 1) % 26) as char]
  }

  function Number(s: string): nat
    requires Letters(s)
  {
    if s == "" then 0 else Number(s[..|s| - 1]) * 26 + (s[|s| - 1] as int - 64)
  }

  /** Columns count through the letters, then through the pairs, up to the last one a sheet can have. */
  lemma KnownColumns()
    ensures Number("A") == 1 && Number("Z") == 26
    ensures Number("AA") == 27 && Number("ZZ") == 702 && Number("AAA") == 703
    ensures Number("XFD") == 16384 == MAX_COLUMN
  {
    OneLetter('A');
    OneLetter('Z');
    OneLetter('X');
    hide Number;
    assert "AA" == "A" + ['A'] && "ZZ" == "Z" + ['Z'] && "AAA" == "AA" + ['A'] && "XF" == "X" + ['F'] && "XFD" == "XF" + ['D'];
    LastLetter("A", 'A');
    LastLetter("Z", 'Z');
    LastLetter("AA", 'A');
    LastLetter("X", 'F');
    LastLetter("XF", 'D');
  }

  lemma OneLetter(c: char)
    requires Letter(c)
    ensures Letters([c]) && Number([c]) == c as int - 'A' as int + 1
  {
    assert [c][..0] == "";
  }

  lemma LastLetter(s: string, c: char)
    requires Letters(s) && Letter(c)
    ensures Letters(s + [c]) && Number(s + [c]) == 26 * Number(s) + (c as int - 'A' as int + 1)
  {
    assert (s + [c])[..|s|] == s;
  }

  lemma {:induction false} NumberOfLabel(n: nat)
    ensures Number(Label(n)) == n
  {
    if n > 0 {
      NumberOfLabel((n - 1) / 26);
      var s := Label(n);
      assert s[..|s| - 1] == Label((n - 1) / 26);
    }
  }

  lemma {:induction false} LabelOfNumber(s: string)
    requires Letters(s)
    ensures Label(Number(s)) == s
  {
    if s != "" {
      var front, digit := s[..|s| - 1], s[|s| - 1] as int - 64;
      LabelOfNumber(front);
      assert Number(s) == Number(front) * 26 + digit && 1 <= digit <= 26;
      assert (Number(s) - 1) / 26 == Number(front) && (Number(s) - 1) % 26 == digit - 1;
      assert s == front + [s[|s| - 1]];
    }
  }

  function Power26(k: nat): (p: nat)
    ensures p > 0
  {
    if k == 0 then 1 else 26 * Power26(k - 1)
  }

  lemma {:induction false} LongIsLarge(s: string)
    requires Letters(s) && s != ""
    ensures Number(s) >= Power26(|s| - 1)
  {
    if |s| > 1 {
      LongIsLarge(s[..|s| - 1]);
    }
  }

  lemma {:induction false} PowersGrow(j: nat, k: nat)
    requires j <= k
    ensures Power26(j) <= Power26(k)
  {
    if j < k {
      PowersGrow(j, k - 1);
    }
  }

  /** A column within bounds has at most three letters. */
  lemma ThreeLetters(s: string)
    requires Letters(s) && Number(s) <= MAX_COLUMN
    ensures |s| <= 3
  {
    if s != "" {
      LongIsLarge(s);
      assert Power26(3) == 17576;
      if |s| > 3 {
        PowersGrow(3, |s| - 1);
      }
    }
  }

  /** `_column_label`: None where it raises. */
  method ColumnLabel(columnNumber: int) returns (r: Option<string>)
    ensures r.Some? <==> columnNumber > 0
    ensures r.Some? ==> r.value == Label(columnNumber)
  {
    if columnNumber <= 0 {
      return None;
    }
    var letters: string := "";
    var value: nat := columnNumber;
    while value != 0
      invariant Label(columnNumber) == Label(value) + Reversed(letters)
      decreases value
    {
      var remainder := (value - 1) % 26;
      value := (value - 1) / 26;
      ReversedAppends(letters, (65 + remainder) as char);
      letters := letters + [(65 + remainder) as char];
    }
    return Some(Reversed(letters));
  }

  function Reversed(s: string): string {
    if s == "" then "" else Reversed(s[1..]) + [s[0]]
  }

  lemma {:induction false} ReversedAppends(s: string, c: char)
    ensures Reversed(s + [c]) == [c] + Reversed(s)
  {
    if s != "" {
      ReversedAppends(s[1..], c);
      assert (s + [c])[1..] == s[1..] + [c];
    } else {
      assert (s + [c])[1..] == "";
    }
  }

  /** `_column_number`, of letters in either case. */
  method ColumnNumber(columnLetters: string) returns (value: nat)
    requires Letters(Upper(columnLetters))
    ensures value == Number(Upper(columnLetters))
  {
    var letters := Upper(columnLetters);
    value := 0;
    var k := 0;
    while k < |letters|
      invariant 0 <= k <= |letters| && value == Number(letters[..k])
    {
      assert letters[..k + 1][..k] == letters[..k];
      value := value * 26 + (letters[k] as int - 64);
      k := k + 1;
    }
    assert letters[..k] == letters;
  }

  // ---------- Coordinates ----------

  predicate Digits(s: string) {
    forall k :: 0 <= k < |s| ==> '0' <= s[k] <= '9'
  }

  predicate RowText(s: string) {
    s != "" && Digits(s) && s[0] != '0'
  }

  /** The coordinate is `column` letters followed by `row` digits, the row without leading zero. */
  ghost predicate Reads(coordinate: string, column: string, row: string) {
    coordinate == column + row && column != "" && Letters(column) && RowText(row)
  }

  ghost predicate InBounds(column: string, row: string)
    requires Letters(column) && Digits(row)
  {
    Number(column) <= MAX_COLUMN && ParseDecimal(row) <= MAX_ROW
  }

  ghost predicate ValidCoordinate(coordinate: string) {
    exists column, row :: Reads(coordinate, column, row) && InBounds(column, row)
  }

  function LetterRun(s: string): (n: nat)
    ensures n <= |s|
  {
    if s == "" || !Letter(s[0]) then 0 else 1 + LetterRun(s[1..])
  }

  lemma {:induction false} LetterRunStops(column: string, rest: string)
    requires Letters(column) && (rest == "" || !Letter(rest[0]))
    ensures LetterRun(column + rest) == |column|
  {
    if column == "" {
      assert column + rest == rest;
    } else {
      assert (column + rest)[1..] == column[1..] + rest;
      LetterRunStops(column[1..], rest);
    }
  }

  /** The first digit ends the column letters, so a coordinate is read in one way. */
  lemma ReadsOnce(coordinate: string, column: string, row: string)
    requires Reads(coordinate, column, row)
    ensures column == coordinate[..LetterRun(coordinate)] && row == coordinate[LetterRun(coordinate)..]
  {
    LetterRunStops(column, row);
  }

  datatype Position = Position(column: string, row: nat, columnNumber: nat)

  lemma UpperSplits(coordinate: string, split: nat)
    requires split <= |coordinate|
    ensures Upper(coordinate) == Upper(coordinate[..split]) + Upper(coordinate[split..])
    ensures Upper(coordinate)[..split] == Upper(coordinate[..split]) && Upper(coordinate)[split..] == Upper(coordinate[split..])
  {}

  lemma DigitsStay(row: string)
    ensures Digits(Upper(row)) ==> Upper(row) == row
    ensures Digits(row) ==> Digits(Upper(row))
  {
    if Digits(Upper(row)) {
      forall k | 0 <= k < |row| ensures UpperChar(row[k]) == row[k] {
        assert '0' <= Upper(row)[k] <= '9';
      }
    }
  }

  /** `_validate_xlsx_coordinate`: letters of either case; the three-letter test refuses nothing the bounds
      would not. */
  method ValidateXlsxCoordinate(coordinate: string) returns (r: Option<Position>)
    ensures r.Some? <==> ValidCoordinate(Upper(coordinate))
    ensures r.Some? ==> r.value.column <= coordinate && PositionOf(Upper(coordinate), r.value.(column := Upper(r.value.column)))
  {
    var split := 0;
    while split < |coordinate| && Letter(UpperChar(coordinate[split]))
      invariant 0 <= split <= |coordinate| && Letters(Upper(coordinate)[..split])
    {
      split := split + 1;
    }
    var column, row := coordinate[..split], coordinate[split..];
    UpperSplits(coordinate, split);
    DigitsStay(row);
    SplitForced(Upper(coordinate), split);
    if column == "" || row == "" || row[0] == '0' || !Digits(row) {
      return None;
    }
    assert Reads(Upper(coordinate), Upper(column), row);
    if |column| > 3 {
      if InBounds(Upper(column), row) {
        ThreeLetters(Upper(column));
      }
      return None;
    }
    var columnNumber := ColumnNumber(column);
    var rowNumber := ParseDecimal(row);
    if rowNumber > MAX_ROW || columnNumber > MAX_COLUMN {
      return None;
    }
    return Some(Position(column, rowNumber, columnNumber));
  }

  /** Any reading of the coordinate splits it where its letters end. */
  lemma SplitForced(coordinate: string, split: nat)
    requires split <= |coordinate| && Letters(coordinate[..split]) && (split < |coordinate| ==> !Letter(coordinate[split]))
    ensures forall c, r :: Reads(coordinate, c, r) ==> c == coordinate[..split] && r == coordinate[split..]
  {
    LetterRunStops(coordinate[..split], coordinate[split..]);
    assert coordinate == coordinate[..split] + coordinate[split..];
    forall c, r | Reads(coordinate, c, r) ensures c == coordinate[..split] && r == coordinate[split..] {
      ReadsOnce(coordinate, c, r);
    }
  }

  ghost predicate PositionOf(coordinate: string, p: Position) {
    exists row :: Reads(coordinate, p.column, row) && InBounds(p.column, row) && p.row == ParseDecimal(row) && p.columnNumber == Number(p.column)
  }

  lemma {:induction false} DecimalOfParse(s: string)
    requires RowText(s)
    ensures Decimal(ParseDecimal(s)) == s && ParseDecimal(s) > 0
  {
    var n := |s| - 1;
    var last := s[n] as int - '0' as int;
    if n == 0 {
      assert s[..0] == [] && s == [s[0]];
    } else {
      DecimalOfParse(s[..n]);
      assert ParseDecimal(s) == ParseDecimal(s[..n]) * 10 + last;
      assert ParseDecimal(s) / 10 == ParseDecimal(s[..n]) && ParseDecimal(s) % 10 == last;
      assert s == s[..n] + [s[n]];
    }
  }

  /** Different accepted coordinates name different cells of the grid. */
  lemma CoordinatesDiffer(a: string, b: string, p: Position, q: Position)
    requires PositionOf(a, p) && PositionOf(b, q)
    ensures (p.row, p.columnNumber) == (q.row, q.columnNumber) ==> a == b
    ensures p.row > 0 && p.columnNumber > 0
  {
    var r :| Reads(a, p.column, r) && InBounds(p.column, r) && p.row == ParseDecimal(r) && p.columnNumber == Number(p.column);
    var s :| Reads(b, q.column, s) && InBounds(q.column, s) && q.row == ParseDecimal(s) && q.columnNumber == Number(q.column);
    DecimalOfParse(r);
    DecimalOfParse(s);
    LabelOfNumber(p.column);
    LabelOfNumber(q.column);
  }

  // ---------- Locators ----------

  predicate SimpleChar(c: char) {
    'A' <= c <= 'Z' || 'a' <= c <= 'z' || '0' <= c <= '9' || c == '_' || c == '.'
  }

  predicate SimpleName(name: string) {
    name != "" && forall k :: 0 <= k < |name| ==> SimpleChar(name[k])
  }

  /** `replace("'", "''")`. */
  function Escaped(name: string): string {
    if name == "" then "" else (if name[0] == '\'' then "''" else [name[0]]) + Escaped(name[1..])
  }

  /** `_sheet_locator`. */
  function SheetLocator(name: string, cell: string): string {
    if SimpleName(name) then name + "!" + cell else "'" + Escaped(name) + "'!" + cell
  }

  predicate NoBang(s: string) {
    forall k :: 0 <= k < |s| ==> s[k] != '!'
  }

  lemma {:induction false} EscapedInjective(a: string, b: string)
    requires Escaped(a) == Escaped(b)
    ensures a == b
  {
    if a != "" && b != "" {
      assert Escaped(a)[0] == a[0] && Escaped(b)[0] == b[0];
      var n := if a[0] == '\'' then 2 else 1;
      assert Escaped(a)[n..] == Escaped(a[1..]) && Escaped(b)[n..] == Escaped(b[1..]);
      EscapedInjective(a[1..], b[1..]);
      assert a == [a[0]] + a[1..] && b == [b[0]] + b[1..];
    }
  }

  /** Length of the longest suffix without a `!`. */
  function TailRun(s: string): (n: nat)
    ensures n <= |s|
  {
    if s == "" || s[|s| - 1] == '!' then 0 else 1 + TailRun(s[..|s| - 1])
  }

  lemma {:induction false} TailRunStops(p: string, c: string)
    requires NoBang(c)
    ensures TailRun(p + "!" + c) == |c|
  {
    var s := p + "!" + c;
    if c == "" {
      assert s[|s| - 1] == '!';
    } else {
      assert s[..|s| - 1] == p + "!" + c[..|c| - 1];
      TailRunStops(p, c[..|c| - 1]);
    }
  }

  /** What precedes the last `!` and what follows it are forced. */
  lemma SplitAtLastBang(p: string, c: string, q: string, d: string)
    requires p + "!" + c == q + "!" + d && NoBang(c) && NoBang(d)
    ensures p == q && c == d
  {
    TailRunStops(p, c);
    TailRunStops(q, d);
    assert p == (p + "!" + c)[..|p|] && c == (p + "!" + c)[|p| + 1..];
    assert q == (q + "!" + d)[..|q|] && d == (q + "!" + d)[|q| + 1..];
  }

  /** The sheet part of a locator starts with a quote just when the name needed quoting. */
  function SheetPart(name: string): (p: string)
    requires name != ""
    ensures p != "" && (p[0] == '\'' <==> !SimpleName(name))
    ensures !SimpleName(name) ==> |p| >= 2 && Escaped(name) == p[1..|p| - 1]
    ensures SimpleName(name) ==> p == name
  {
    if SimpleName(name) then name else "'" + Escaped(name) + "'"
  }

  lemma LocatorParts(name: string, cell: string)
    requires name != ""
    ensures SheetLocator(name, cell) == SheetPart(name) + "!" + cell
  {
    assert "'" + Escaped(name) + "'!" + cell == ("'" + Escaped(name) + "'") + "!" + cell;
  }

  /** Two cells share a locator only when they are the same cell of the same sheet. */
  lemma LocatorInjective(a: string, c: string, b: string, d: string)
    requires NoBang(c) && NoBang(d) && a != "" && b != ""
    requires SheetLocator(a, c) == SheetLocator(b, d)
    ensures a == b && c == d
  {
    hide *;
    LocatorParts(a, c);
    LocatorParts(b, d);
    SplitAtLastBang(SheetPart(a), c, SheetPart(b), d);
    if !SimpleName(a) {
      EscapedInjective(a, b);
    }
  }

  lemma CoordinateHasNoBang(coordinate: string)
    requires ValidCoordinate(coordinate)
    ensures NoBang(coordinate)
  {
    var column, row :| Reads(coordinate, column, row) && InBounds(column, row);
  }

  // ---------- The cell loop ----------

  datatype SheetCell = SheetCell(coordinate: string, text: string)

  datatype Sheet = Sheet(name: string, cells: seq<SheetCell>)

  datatype Evidence = Evidence(sheet: string, coordinate: string, locator: string, row: nat, column: nat, text: string)

  predicate Control(c: char) {
    var code := c as int;
    code <= 8 || code == 11 || code == 12 || 14 <= code <= 31 || code == 127
  }

  predicate Forbidden(c: char) {
    c == '[' || c == ']' || c == ':' || c == '*' || c == '?' || c == '/' || c == '\\'
  }

  /** `_validate_sheet_name`. */
  predicate ValidSheetName(name: string) {
    && 0 < |name| <= 31
    && (forall k :: 0 <= k < |name| ==> !Control(name[k]) && !Forbidden(name[k]))
    && name[0] != '\'' && name[|name| - 1] != '\''
  }

  ghost predicate PlainChar(c: char) {
    && c !in "[]:*?/\\" && c as int != 127
    && (c < ' ' ==> c as int == 9 || c as int == 10 || c as int == 13)
  }

  /** A name is valid exactly when it has 1 to 31 plain characters and no quote at either end. */
  lemma SheetNameIff(name: string)
    ensures ValidSheetName(name) <==>
      1 <= |name| <= 31 && (forall c :: c in name ==> PlainChar(c)) && name[0] != '\'' && name[|name| - 1] != '\''
  {
    forall c ensures PlainChar(c) <==> !Control(c) && !Forbidden(c) {
      var f := "[]:*?/\\";
      assert f[0] == '[' && f[1] == ']' && f[2] == ':' && f[3] == '*' && f[4] == '?' && f[5] == '/' && f[6] == '\\';
    }
    hide PlainChar, Control, Forbidden;
    assert (forall k :: 0 <= k < |name| ==> PlainChar(name[k])) <==> forall c :: c in name ==> PlainChar(c);
  }

  ghost predicate CellsUpper(sheet: Sheet) {
    forall k :: 0 <= k < |sheet.cells| ==> NoLower(sheet.cells[k].coordinate)
  }

  /** The sheet with each cell reference upper-cased, as the cell loop reads it. */
  function Read(upper: string -> string, sheet: Sheet): (r: Sheet)
    ensures r.name == sheet.name && |r.cells| == |sheet.cells|
    ensures forall k :: 0 <= k < |r.cells| ==> r.cells[k] == SheetCell(upper(sheet.cells[k].coordinate), sheet.cells[k].text)
  {
    Sheet(sheet.name, seq(|sheet.cells|, k requires 0 <= k < |sheet.cells| => SheetCell(upper(sheet.cells[k].coordinate), sheet.cells[k].text)))
  }

  function ReadAll(upper: string -> string, sheets: seq<Sheet>): (r: seq<Sheet>)
    ensures |r| == |sheets| && forall k :: 0 <= k < |r| ==> r[k] == Read(upper, sheets[k])
  {
    seq(|sheets|, k requires 0 <= k < |sheets| => Read(upper, sheets[k]))
  }

  ghost predicate SheetFine(sheet: Sheet, maxChars: nat) {
    && ValidSheetName(sheet.name)
    && (forall k :: 0 <= k < |sheet.cells| ==> ValidCoordinate(sheet.cells[k].coordinate) && |sheet.cells[k].text| <= maxChars)
    && (forall i, j :: 0 <= i < j < |sheet.cells| ==> sheet.cells[i].coordinate != sheet.cells[j].coordinate)
  }

  /** The checks that remain when the locator test is left out. */
  ghost predicate WorkbookFine(sheets: seq<Sheet>, casefold: string -> string, maxChars: nat) {
    && (forall k :: 0 <= k < |sheets| ==> SheetFine(sheets[k], maxChars))
    && (forall i, j :: 0 <= i < j < |sheets| ==> casefold(sheets[i].name) != casefold(sheets[j].name))
  }

  ghost function CellCount(sheets: seq<Sheet>): nat {
    if sheets == [] then 0 else CellCount(sheets[..|sheets| - 1]) + |sheets[|sheets| - 1].cells|
  }

  /** An evidence item of a cell. */
  ghost predicate Describes(e: Evidence, sheet: Sheet, cell: SheetCell) {
    && e.sheet == sheet.name && e.coordinate == cell.coordinate && e.text == cell.text
    && e.locator == SheetLocator(sheet.name, cell.coordinate)
    && exists p :: PositionOf(cell.coordinate, p) && e.row == p.row && e.column == p.columnNumber
  }

  /** No two items share a locator, a coordinate of one sheet, or a grid position of one sheet. */
  ghost predicate Apart(evidence: seq<Evidence>) {
    forall i, j :: 0 <= i < j < |evidence| ==>
      && evidence[i].locator != evidence[j].locator
      && (evidence[i].sheet, evidence[i].row, evidence[i].column) != (evidence[j].sheet, evidence[j].row, evidence[j].column)
  }

  /** The cells of one sheet; the locators seen so far belong to other sheets. */
  method ParseSheet(sheet: Sheet, maxChars: nat, evidence: seq<Evidence>, seenLocators: set<string>, ghost earlier: set<string>)
    returns (r: Option<seq<Evidence>>, locators: set<string>)
    requires ValidSheetName(sheet.name) && CellsUpper(sheet)
    requires FromEarlier(seenLocators, earlier)
    requires sheet.name !in earlier
    ensures r.Some? <==> SheetFine(sheet, maxChars)
    ensures r.Some? ==>
      && |r.value| == |evidence| + |sheet.cells| && evidence <= r.value
      && (forall k :: 0 <= k < |sheet.cells| ==> Describes(r.value[|evidence| + k], sheet, sheet.cells[k]))
    ensures r.Some? ==> forall l :: l in locators <==> l in seenLocators || exists k :: 0 <= k < |sheet.cells| && l == SheetLocator(sheet.name, sheet.cells[k].coordinate)
  {
    hide ValidCoordinate, PositionOf, SheetLocator;
    var seen: set<string> := {};
    locators := seenLocators;
    var items := evidence;
    var k := 0;
    while k < |sheet.cells|
      invariant 0 <= k <= |sheet.cells|
      invariant forall i :: 0 <= i < k ==> ValidCoordinate(sheet.cells[i].coordinate) && |sheet.cells[i].text| <= maxChars
      invariant forall i, j :: 0 <= i < j < k ==> sheet.cells[i].coordinate != sheet.cells[j].coordinate
      invariant forall c :: c in seen <==> exists i :: 0 <= i < k && sheet.cells[i].coordinate == c
      invariant |items| == |evidence| + k && evidence <= items
      invariant forall i :: 0 <= i < k ==> Describes(items[|evidence| + i], sheet, sheet.cells[i])
      invariant forall l :: l in locators <==> l in seenLocators || exists i :: 0 <= i < k && l == SheetLocator(sheet.name, sheet.cells[i].coordinate)
    {
      var cell := sheet.cells[k];
      UpperIsFixed(cell.coordinate);
      var position := ValidateXlsxCoordinate(cell.coordinate);
      if position.None? || cell.coordinate in seen || |cell.text| > maxChars {
        return None, locators;
      }
      seen := seen + {cell.coordinate};
      var locator := SheetLocator(sheet.name, cell.coordinate);
      FreshLocator(sheet, k, seenLocators, earlier, locator);
      if locator in locators {
        assert false;
        return None, locators;
      }
      locators := locators + {locator};
      var item := Evidence(sheet.name, cell.coordinate, locator, position.value.row, position.value.columnNumber, cell.text);
      Described(item, sheet, cell, position.value);
      items := items + [item];
      k := k + 1;
    }
    return Some(items), locators;
  }

  lemma Described(e: Evidence, sheet: Sheet, cell: SheetCell, p: Position)
    requires PositionOf(cell.coordinate, p.(column := Upper(p.column)))
    requires e == Evidence(sheet.name, cell.coordinate, SheetLocator(sheet.name, cell.coordinate), p.row, p.columnNumber, cell.text)
    ensures Describes(e, sheet, cell)
  {
    hide PositionOf, SheetLocator;
  }

  /** A new coordinate of a new sheet has a new locator: the duplicate-locator error is unreachable. */
  lemma FreshLocator(sheet: Sheet, k: nat, seenLocators: set<string>, earlier: set<string>, locator: string)
    requires k < |sheet.cells| && sheet.name != "" && sheet.name !in earlier && locator == SheetLocator(sheet.name, sheet.cells[k].coordinate)
    requires forall i :: 0 <= i <= k ==> ValidCoordinate(sheet.cells[i].coordinate)
    requires forall i :: 0 <= i < k ==> sheet.cells[i].coordinate != sheet.cells[k].coordinate
    requires FromEarlier(seenLocators, earlier)
    ensures locator !in seenLocators
    ensures forall i :: 0 <= i < k ==> SheetLocator(sheet.name, sheet.cells[i].coordinate) != locator
  {
    hide SheetLocator, ValidCoordinate;
    CoordinateHasNoBang(sheet.cells[k].coordinate);
    if locator in seenLocators {
      var name, cell :| name in earlier && name != "" && NoBang(cell) && locator == SheetLocator(name, cell);
      LocatorInjective(name, cell, sheet.name, sheet.cells[k].coordinate);
    }
    forall i | 0 <= i < k ensures SheetLocator(sheet.name, sheet.cells[i].coordinate) != locator {
      CoordinateHasNoBang(sheet.cells[i].coordinate);
      if SheetLocator(sheet.name, sheet.cells[i].coordinate) == locator {
        LocatorInjective(sheet.name, sheet.cells[i].coordinate, sheet.name, sheet.cells[k].coordinate);
      }
    }
  }

  ghost predicate FromEarlier(locators: set<string>, earlier: set<string>) {
    forall l :: l in locators ==> exists name, cell :: name in earlier && name != "" && NoBang(cell) && l == SheetLocator(name, cell)
  }

  ghost function Names(sheets: seq<Sheet>): set<string> {
    set k: nat | k < |sheets| :: sheets[k].name
  }

  /** The items of the first sheets, in order: one per cell. */
  ghost predicate Lists(evidence: seq<Evidence>, sheets: seq<Sheet>)
    decreases |sheets|
  {
    if sheets == [] then evidence == []
    else
      var n := |sheets| - 1;
      var last := sheets[n];
      && |evidence| >= |last.cells| && Lists(evidence[..|evidence| - |last.cells|], sheets[..n])
      && forall k :: 0 <= k < |last.cells| ==> Describes(evidence[|evidence| - |last.cells| + k], last, last.cells[k])
  }

  method ParseUpperSheets(sheets: seq<Sheet>, casefold: string -> string, maxChars: nat, maxItems: nat) returns (r: Option<seq<Evidence>>)
    requires forall k :: 0 <= k < |sheets| ==> CellsUpper(sheets[k])
    ensures r.Some? <==> WorkbookFine(sheets, casefold, maxChars) && CellCount(sheets) <= maxItems
    ensures r.Some? ==> Lists(r.value, sheets)
  {
    hide CellsUpper, SheetFine, Describes, SheetLocator, ValidCoordinate, FromEarlier, Lists, CellCount, ValidSheetName;
    NoSheets();
    var evidence: seq<Evidence> := [];
    var locators: set<string> := {};
    var seenNames: set<string> := {};
    var k := 0;
    while k < |sheets|
      invariant 0 <= k <= |sheets|
      invariant WorkbookFine(sheets[..k], casefold, maxChars) && |evidence| == CellCount(sheets[..k]) <= maxItems
      invariant forall s :: s in seenNames <==> exists i :: 0 <= i < k && casefold(sheets[i].name) == s
      invariant FromEarlier(locators, Names(sheets[..k])) && Lists(evidence, sheets[..k])
    {
      var sheet := sheets[k];
      FrontOf(sheets, k);
      if !ValidSheetName(sheet.name) || casefold(sheet.name) in seenNames {
        NameMatters(sheet, maxChars);
        return None;
      }
      assert sheet.name !in Names(sheets[..k]);
      var parsed;
      ghost var before := locators;
      parsed, locators := ParseSheet(sheet, maxChars, evidence, locators, Names(sheets[..k]));
      if parsed.None? {
        return None;
      }
      CountGrows(sheets, k + 1);
      if |parsed.value| > maxItems {
        return None;
      }
      StillFromEarlier(sheets, k, before, locators, maxChars);
      ListsNext(evidence, parsed.value, sheets, k);
      evidence := parsed.value;
      seenNames := seenNames + {casefold(sheet.name)};
      k := k + 1;
    }
    assert sheets[..k] == sheets;
    return Some(evidence);
  }

  /** The cell loop of `_parse_xlsx` over already located sheets: the only refusals are bad names, bad or
      repeated coordinates, overlong texts and too many items. `upper` is Python's, of which only the absence of
      ASCII lower-case letters matters. */
  method ParseSheets(sheets: seq<Sheet>, upper: string -> string, casefold: string -> string, maxChars: nat, maxItems: nat)
    returns (r: Option<seq<Evidence>>)
    requires forall text :: NoLower(upper(text))
    ensures r.Some? <==> WorkbookFine(ReadAll(upper, sheets), casefold, maxChars) && CellCount(ReadAll(upper, sheets)) <= maxItems
    ensures r.Some? ==> Lists(r.value, ReadAll(upper, sheets))
  {
    hide WorkbookFine, CellCount, Lists, NoLower;
    r := ParseUpperSheets(ReadAll(upper, sheets), casefold, maxChars, maxItems);
  }

  lemma NoSheets()
    ensures CellCount([]) == 0 && FromEarlier({}, Names([])) && Lists([], [])
  {}

  lemma NameMatters(sheet: Sheet, maxChars: nat)
    ensures SheetFine(sheet, maxChars) ==> ValidSheetName(sheet.name)
  {}

  lemma FrontOf(sheets: seq<Sheet>, k: nat)
    requires k < |sheets|
    ensures sheets[..k + 1] == sheets[..k] + [sheets[k]] && sheets[..k + 1][..k] == sheets[..k]
    ensures CellCount(sheets[..k + 1]) == CellCount(sheets[..k]) + |sheets[k].cells|
  {
    assert sheets[..k + 1][..k] == sheets[..k];
  }

  lemma {:induction false} CountGrows(sheets: seq<Sheet>, k: nat)
    requires k <= |sheets|
    ensures CellCount(sheets[..k]) <= CellCount(sheets)
  {
    if k < |sheets| {
      CountGrows(sheets[..|sheets| - 1], k);
      assert sheets[..|sheets| - 1][..k] == sheets[..k];
    } else {
      assert sheets[..k] == sheets;
    }
  }

  lemma StillFromEarlier(sheets: seq<Sheet>, k: nat, before: set<string>, after: set<string>, maxChars: nat)
    requires k < |sheets| && SheetFine(sheets[k], maxChars) && FromEarlier(before, Names(sheets[..k]))
    requires forall l :: l in after <==> l in before || exists i :: 0 <= i < |sheets[k].cells| && l == SheetLocator(sheets[k].name, sheets[k].cells[i].coordinate)
    ensures FromEarlier(after, Names(sheets[..k + 1]))
  {
    hide SheetLocator, ValidCoordinate;
    assert sheets[..k + 1][k] == sheets[k];
    forall name | name in Names(sheets[..k]) ensures name in Names(sheets[..k + 1]) {
      var i: nat :| i < k && sheets[..k][i].name == name;
      assert sheets[..k + 1][i].name == name;
    }
    forall l | l in after ensures exists name, cell :: name in Names(sheets[..k + 1]) && name != "" && NoBang(cell) && l == SheetLocator(name, cell) {
      if l !in before {
        var i :| 0 <= i < |sheets[k].cells| && l == SheetLocator(sheets[k].name, sheets[k].cells[i].coordinate);
        CoordinateHasNoBang(sheets[k].cells[i].coordinate);
      } else {
        var name, cell :| name in Names(sheets[..k]) && name != "" && NoBang(cell) && l == SheetLocator(name, cell);
        assert name in Names(sheets[..k + 1]);
      }
    }
  }

  lemma ListsOneMore(evidence: seq<Evidence>, added: seq<Evidence>, sheets: seq<Sheet>, last: Sheet)
    requires Lists(evidence, sheets) && |added| == |last.cells|
    requires forall i :: 0 <= i < |added| ==> Describes(added[i], last, last.cells[i])
    ensures Lists(evidence + added, sheets + [last])
  {
    hide Describes;
    var all, more := sheets + [last], evidence + added;
    assert all[|all| - 1] == last && all[..|all| - 1] == sheets;
    assert more[..|more| - |last.cells|] == evidence;
    assert forall i :: 0 <= i < |added| ==> more[|more| - |last.cells| + i] == added[i];
  }

  lemma ListsNext(evidence: seq<Evidence>, more: seq<Evidence>, sheets: seq<Sheet>, k: nat)
    requires k < |sheets| && Lists(evidence, sheets[..k])
    requires |more| == |evidence| + |sheets[k].cells| && evidence <= more
    requires forall i :: 0 <= i < |sheets[k].cells| ==> Describes(more[|evidence| + i], sheets[k], sheets[k].cells[i])
    ensures Lists(more, sheets[..k + 1])
  {
    hide Describes, Lists;
    ListsOneMore(evidence, more[|evidence|..], sheets[..k], sheets[k]);
    assert more == evidence + more[|evidence|..];
    assert sheets[..k + 1] == sheets[..k] + [sheets[k]];
  }

  // ---------- Distinct items ----------

  lemma {:induction false} ListedFrom(evidence: seq<Evidence>, sheets: seq<Sheet>, k: nat) returns (i: nat, j: nat)
    requires Lists(evidence, sheets) && k < |evidence|
    ensures i < |sheets| && j < |sheets[i].cells| && Describes(evidence[k], sheets[i], sheets[i].cells[j])
    decreases |sheets|
  {
    hide Describes;
    var n := |sheets| - 1;
    var start := |evidence| - |sheets[n].cells|;
    if k < start {
      i, j := ListedFrom(evidence[..start], sheets[..n], k);
    } else {
      i, j := n, k - start;
    }
  }

  /** Items of a parsed workbook never share a locator, nor a grid position of one sheet. */
  lemma {:induction false} ItemsApart(evidence: seq<Evidence>, sheets: seq<Sheet>, casefold: string -> string, maxChars: nat)
    requires WorkbookFine(sheets, casefold, maxChars) && Lists(evidence, sheets)
    ensures Apart(evidence)
    decreases |sheets|
  {
    hide Describes, ValidCoordinate, SheetFine;
    if sheets != [] {
      var n := |sheets| - 1;
      var last := sheets[n];
      var start := |evidence| - |last.cells|;
      ItemsApart(evidence[..start], sheets[..n], casefold, maxChars);
      assert SheetFine(last, maxChars);
      forall a, b | 0 <= a < b < |evidence|
        ensures evidence[a].locator != evidence[b].locator
        ensures (evidence[a].sheet, evidence[a].row, evidence[a].column) != (evidence[b].sheet, evidence[b].row, evidence[b].column)
      {
        if b < start {
          assert evidence[..start][a] == evidence[a] && evidence[..start][b] == evidence[b];
        } else if a < start {
          var i, j := ListedFrom(evidence[..start], sheets[..n], a);
          assert casefold(sheets[i].name) != casefold(last.name);
          assert SheetFine(sheets[i], maxChars);
          OtherSheet(evidence[a], sheets[i], j, evidence[b], last, b - start, maxChars);
        } else {
          SameSheet(evidence[a], evidence[b], last, a - start, b - start, maxChars);
        }
      }
    }
  }

  lemma OtherSheet(x: Evidence, s: Sheet, i: nat, y: Evidence, t: Sheet, j: nat, maxChars: nat)
    requires i < |s.cells| && j < |t.cells| && Describes(x, s, s.cells[i]) && Describes(y, t, t.cells[j])
    requires SheetFine(s, maxChars) && SheetFine(t, maxChars) && s.name != t.name
    ensures x.locator != y.locator && x.sheet != y.sheet
  {
    hide SheetLocator, ValidCoordinate;
    CoordinateHasNoBang(s.cells[i].coordinate);
    CoordinateHasNoBang(t.cells[j].coordinate);
    if x.locator == y.locator {
      LocatorInjective(s.name, s.cells[i].coordinate, t.name, t.cells[j].coordinate);
    }
  }

  lemma SameSheet(x: Evidence, y: Evidence, s: Sheet, i: nat, j: nat, maxChars: nat)
    requires i < j < |s.cells| && Describes(x, s, s.cells[i]) && Describes(y, s, s.cells[j]) && SheetFine(s, maxChars)
    ensures x.locator != y.locator && (x.row, x.column) != (y.row, y.column)
  {
    hide SheetLocator, ValidCoordinate, PositionOf;
    CoordinateHasNoBang(s.cells[i].coordinate);
    CoordinateHasNoBang(s.cells[j].coordinate);
    if x.locator == y.locator {
      LocatorInjective(s.name, s.cells[i].coordinate, s.name, s.cells[j].coordinate);
    }
    var p :| PositionOf(s.cells[i].coordinate, p) && x.row == p.row && x.column == p.columnNumber;
    var q :| PositionOf(s.cells[j].coordinate, q) && y.row == q.row && y.column == q.columnNumber;
    CoordinatesDiffer(s.cells[i].coordinate, s.cells[j].coordinate, p, q);
  }
}

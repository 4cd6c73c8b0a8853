/** What the mapped table holds, from the selected items alone: no grid, no chosen columns, no intermediate rows. */
module TableReadings {
  import opened Json
  import opened Tables

  // ---------- The items ----------

  /** An item that can be evidence: a value in a place of this file, and a formula only where a CSV number looks
      like one. */
  ghost predicate IsEvidence(conv: Conventions, csv: bool, sourceHash: string, item: Item) {
    && !item.formula
    && (item.potentialFormula ==> csv && conv.strip(item.text) != "" && conv.float(conv.strip(item.text)) != None)
    && 1 <= item.row && 1 <= item.column && conv.strip(item.locator) != "" && item.sourceHash == sourceHash
  }

  ghost predicate PlacesApart(items: seq<Item>) {
    forall i, j :: 0 <= i < j < |items| ==>
      (items[i].row != items[j].row || items[i].column != items[j].column) && items[i].locator != items[j].locator
  }

  ghost predicate ItemsProper(conv: Conventions, csv: bool, sourceHash: string, items: seq<Item>) {
    && (forall i :: 0 <= i < |items| ==> IsEvidence(conv, csv, sourceHash, items[i]))
    && PlacesApart(items)
  }

  lemma {:induction false} CleanIff(conv: Conventions, csv: bool, sourceHash: string, items: seq<Item>)
    ensures AllClean(conv, csv, sourceHash, items) <==> ItemsProper(conv, csv, sourceHash, items)
  {
    if items != [] {
      var n := |items| - 1;
      var front := items[..n];
      CleanIff(conv, csv, sourceHash, front);
      NewPlace(items);
      EvidenceIff(conv, csv, sourceHash, items[n]);
      hide Clean, IsEvidence, Grid, SeenLocators;
      assert items == front + [items[n]];
      if ItemsProper(conv, csv, sourceHash, items) {
        forall i | 0 <= i < n ensures IsEvidence(conv, csv, sourceHash, front[i]) {
          assert front[i] == items[i];
        }
      }
    }
  }

  lemma EvidenceIff(conv: Conventions, csv: bool, sourceHash: string, item: Item)
    ensures Clean(conv, csv, sourceHash, item) <==> IsEvidence(conv, csv, sourceHash, item)
  {}

  lemma NewPlace(items: seq<Item>)
    requires items != []
    ensures var n := |items| - 1;
      Coordinate(items[n]) !in Grid(items[..n]) && items[n].locator !in SeenLocators(items[..n]) <==>
        forall i :: 0 <= i < n ==>
          (items[i].row != items[n].row || items[i].column != items[n].column) && items[i].locator != items[n].locator
  {
    var n := |items| - 1;
    var front := items[..n];
    forall i | 0 <= i < n ensures Coordinate(items[i]) in Grid(front) && items[i].locator in SeenLocators(front) {
      assert front[i] == items[i];
      GridMember(front, i);
    }
    if Coordinate(items[n]) in Grid(front) {
      var i := GridFrom(front, Coordinate(items[n]));
      assert items[i] == front[i];
    }
  }

  lemma {:induction false} GridAt(items: seq<Item>, i: nat)
    requires PlacesApart(items) && i < |items|
    ensures Coordinate(items[i]) in Grid(items) && Grid(items)[Coordinate(items[i])] == CellOf(items[i])
  {
    var n := |items| - 1;
    if i < n {
      assert items[..n][i] == items[i];
      GridAt(items[..n], i);
      assert Coordinate(items[i]) != Coordinate(items[n]);
    }
  }

  // ---------- Headers ----------

  ghost predicate IsHeading(conv: Conventions, spec: Spec, item: Item) {
    item.row == spec.headerRow && conv.strip(item.text) != ""
  }

  /** No two headings of the header row normalize alike. */
  ghost predicate HeadingsApart(conv: Conventions, spec: Spec, items: seq<Item>) {
    forall i, j :: 0 <= i < j < |items| && IsHeading(conv, spec, items[i]) && IsHeading(conv, spec, items[j]) ==>
      conv.header(items[i].text) != conv.header(items[j].text)
  }

  /** Each requested column has its heading item. */
  ghost predicate Headed(conv: Conventions, spec: Spec, items: seq<Item>, heads: map<Canonical, nat>) {
    && (forall c :: c in heads <==> exists k :: 0 <= k < |spec.columns| && spec.columns[k].0 == c)
    && forall k :: 0 <= k < |spec.columns| ==>
         var i := heads[spec.columns[k].0];
         i < |items| && IsHeading(conv, spec, items[i]) && conv.header(items[i].text) == conv.header(spec.columns[k].1)
  }

  lemma LocatedIff(conv: Conventions, spec: Spec, items: seq<Item>, heads: map<Canonical, nat>)
    ensures Located(conv, spec, items, heads) <==> Headed(conv, spec, items, heads)
  {
    forall c ensures c in ColumnKeys(spec) <==> exists k :: 0 <= k < |spec.columns| && spec.columns[k].0 == c {
      if k :| 0 <= k < |spec.columns| && spec.columns[k].0 == c {
        assert spec.columns[k].0 in ColumnKeys(spec);
      }
    }
    hide ColumnKeys;
    assert Located(conv, spec, items, heads) ==> heads.Keys == ColumnKeys(spec);
    assert Headed(conv, spec, items, heads) ==> heads.Keys == ColumnKeys(spec);
  }

  lemma HeadInside(conv: Conventions, spec: Spec, items: seq<Item>, heads: map<Canonical, nat>, c: Canonical)
    requires Headed(conv, spec, items, heads) && c in heads
    ensures heads[c] < |items|
  {}

  // ---------- Rows ----------

  /** Item `i` stands in row `number` under the heading of `c`. */
  ghost predicate Under(items: seq<Item>, heads: map<Canonical, nat>, number: int, c: Canonical, i: int) {
    && 0 <= i < |items| && c in heads && heads[c] < |items|
    && items[i].row == number && items[i].column == items[heads[c]].column
  }

  /** The item's place and text, unchanged. */
  ghost predicate Holds(cell: Cell, item: Item) {
    cell == Cell(item.row, item.column, item.text, item.locator, item.sourceHash, item.kind)
  }

  /** The row has a cell for `c` just when some item stands there, and holds that item. */
  ghost predicate CellFrom(items: seq<Item>, heads: map<Canonical, nat>, row: MappedRow, c: Canonical) {
    if c in row.cells then exists i :: Under(items, heads, row.number, c, i) && Holds(row.cells[c], items[i])
    else forall i :: !Under(items, heads, row.number, c, i)
  }

  ghost predicate RowRead(items: seq<Item>, heads: map<Canonical, nat>, row: MappedRow) {
    forall c :: CellFrom(items, heads, row, c)
  }

  ghost predicate SaysSomething(conv: Conventions, row: MappedRow) {
    exists c :: c in row.cells && conv.strip(row.cells[c].text) != ""
  }

  /** Item `i` says something below the header under some heading. */
  ghost predicate IsData(conv: Conventions, spec: Spec, items: seq<Item>, heads: map<Canonical, nat>, i: int) {
    && 0 <= i < |items| && items[i].row > spec.headerRow && conv.strip(items[i].text) != ""
    && exists c :: Under(items, heads, items[i].row, c, i)
  }

  ghost predicate HasNumber(rows: seq<MappedRow>, number: int) {
    exists r :: 0 <= r < |rows| && rows[r].number == number
  }

  lemma RowIsRead(conv: Conventions, spec: Spec, items: seq<Item>, heads: map<Canonical, nat>, n: int)
    requires PlacesApart(items) && forall c :: c in heads ==> heads[c] < |items|
    ensures var row := RowAt(Grid(items), ColumnsOf(items, heads), n); row.number == n && RowRead(items, heads, row)
  {
    var columns := ColumnsOf(items, heads);
    var row := RowAt(Grid(items), columns, n);
    forall c ensures CellFrom(items, heads, row, c) {
      if c in row.cells {
        var i := GridFrom(items, (n, columns[c]));
        GridAt(items, i);
        assert Under(items, heads, n, c, i) && Holds(row.cells[c], items[i]);
      } else {
        forall i ensures !Under(items, heads, n, c, i) {
          if Under(items, heads, n, c, i) {
            GridAt(items, i);
          }
        }
      }
    }
  }

  lemma OneUnder(items: seq<Item>, heads: map<Canonical, nat>, n: int, c: Canonical, i: int, j: int)
    requires PlacesApart(items) && Under(items, heads, n, c, i) && Under(items, heads, n, c, j)
    ensures i == j
  {}

  lemma CellFixed(items: seq<Item>, heads: map<Canonical, nat>, a: MappedRow, b: MappedRow, c: Canonical)
    requires PlacesApart(items) && a.number == b.number && CellFrom(items, heads, a, c) && CellFrom(items, heads, b, c)
    ensures c in a.cells <==> c in b.cells
    ensures c in a.cells && c in b.cells ==> a.cells[c] == b.cells[c]
  {
    hide PlacesApart;
    if c in a.cells && c in b.cells {
      var i :| Under(items, heads, a.number, c, i) && Holds(a.cells[c], items[i]);
      var j :| Under(items, heads, b.number, c, j) && Holds(b.cells[c], items[j]);
      OneUnder(items, heads, a.number, c, i, j);
    }
  }

  lemma RowFixed(items: seq<Item>, heads: map<Canonical, nat>, a: MappedRow, b: MappedRow)
    requires PlacesApart(items) && a.number == b.number && RowRead(items, heads, a) && RowRead(items, heads, b)
    ensures a == b
  {
    hide PlacesApart, CellFrom;
    forall c
      ensures c in a.cells <==> c in b.cells
      ensures c in a.cells && c in b.cells ==> a.cells[c] == b.cells[c]
    {
      CellFixed(items, heads, a, b, c);
    }
    assert a.cells.Keys == b.cells.Keys;
    assert a.cells == b.cells;
  }

  lemma RowReadIff(conv: Conventions, spec: Spec, items: seq<Item>, heads: map<Canonical, nat>, row: MappedRow)
    requires PlacesApart(items) && forall c :: c in heads ==> heads[c] < |items|
    ensures row == RowAt(Grid(items), ColumnsOf(items, heads), row.number) <==> RowRead(items, heads, row)
  {
    var read := RowAt(Grid(items), ColumnsOf(items, heads), row.number);
    RowIsRead(conv, spec, items, heads, row.number);
    hide *;
    if RowRead(items, heads, row) {
      RowFixed(items, heads, row, read);
    }
  }

  /** A row says something exactly when some item of its number does. */
  lemma DataIn(conv: Conventions, spec: Spec, items: seq<Item>, heads: map<Canonical, nat>, row: MappedRow)
    requires PlacesApart(items) && RowRead(items, heads, row) && row.number > spec.headerRow
    ensures SaysSomething(conv, row) <==> exists i :: IsData(conv, spec, items, heads, i) && items[i].row == row.number
  {
    hide Under, PlacesApart, RowRead, CellFrom;
    if SaysSomething(conv, row) {
      var c :| c in row.cells && conv.strip(row.cells[c].text) != "";
      var i := CellItem(items, heads, row, c);
      assert IsData(conv, spec, items, heads, i);
    }
    if i :| IsData(conv, spec, items, heads, i) && items[i].row == row.number {
      var c :| Under(items, heads, items[i].row, c, i);
      ItemCell(items, heads, row, c, i);
      assert conv.strip(row.cells[c].text) != "";
    }
  }

  lemma DataRow(conv: Conventions, spec: Spec, items: seq<Item>, heads: map<Canonical, nat>, n: int)
    requires PlacesApart(items) && (forall c :: c in heads ==> heads[c] < |items|) && n > spec.headerRow
    ensures NonBlank(conv, RowAt(Grid(items), ColumnsOf(items, heads), n)) <==>
      exists i :: IsData(conv, spec, items, heads, i) && items[i].row == n
  {
    hide *;
    var row := RowAt(Grid(items), ColumnsOf(items, heads), n);
    RowIsRead(conv, spec, items, heads, n);
    SomethingIff(conv, row);
    DataIn(conv, spec, items, heads, row);
  }

  lemma CellItem(items: seq<Item>, heads: map<Canonical, nat>, row: MappedRow, c: Canonical) returns (i: nat)
    requires RowRead(items, heads, row) && c in row.cells
    ensures i < |items| && items[i].row == row.number && Under(items, heads, row.number, c, i) && Holds(row.cells[c], items[i])
  {
    assert CellFrom(items, heads, row, c);
    i :| Under(items, heads, row.number, c, i) && Holds(row.cells[c], items[i]);
  }

  lemma ItemCell(items: seq<Item>, heads: map<Canonical, nat>, row: MappedRow, c: Canonical, i: nat)
    requires PlacesApart(items) && RowRead(items, heads, row) && Under(items, heads, row.number, c, i)
    ensures i < |items| && c in row.cells && Holds(row.cells[c], items[i])
  {
    assert CellFrom(items, heads, row, c);
    if c in row.cells {
      var j := CellItem(items, heads, row, c);
      OneUnder(items, heads, row.number, c, i, j);
    }
  }

  /** Rows that are read off one by one, in order, none missing. */
  ghost predicate RowsRead(conv: Conventions, spec: Spec, items: seq<Item>, heads: map<Canonical, nat>, rows: seq<MappedRow>) {
    && (forall r, s :: 0 <= r < s < |rows| ==> rows[r].number < rows[s].number)
    && (forall r :: 0 <= r < |rows| ==> rows[r].number > spec.headerRow && RowRead(items, heads, rows[r]) && SaysSomething(conv, rows[r]))
    && (forall i :: IsData(conv, spec, items, heads, i) ==> HasNumber(rows, items[i].row))
  }

  lemma RowsOfIff(conv: Conventions, spec: Spec, items: seq<Item>, heads: map<Canonical, nat>, rows: seq<MappedRow>)
    requires PlacesApart(items) && forall c :: c in heads ==> heads[c] < |items|
    ensures RowsOf(conv, spec, Grid(items), ColumnsOf(items, heads), rows) <==> RowsRead(conv, spec, items, heads, rows)
  {
    var grid, columns := Grid(items), ColumnsOf(items, heads);
    hide RowAt, Grid, ColumnsOf, RowRead, NonBlank, SaysSomething, PlacesApart, IsData, HasNumber;
    forall r | 0 <= r < |rows|
      ensures rows[r] == RowAt(grid, columns, rows[r].number) <==> RowRead(items, heads, rows[r])
      ensures NonBlank(conv, rows[r]) <==> SaysSomething(conv, rows[r])
    {
      RowReadIff(conv, spec, items, heads, rows[r]);
      SomethingIff(conv, rows[r]);
    }
    forall n: int
      ensures RowAt(grid, columns, n).number == n
      ensures n > spec.headerRow ==>
        (NonBlank(conv, RowAt(grid, columns, n)) <==> exists i :: IsData(conv, spec, items, heads, i) && items[i].row == n)
    {
      RowIsRead(conv, spec, items, heads, n);
      if n > spec.headerRow {
        DataRow(conv, spec, items, heads, n);
      }
    }
    if forall r :: 0 <= r < |rows| ==> rows[r] == RowAt(grid, columns, rows[r].number) {
      EveryRowIff(conv, spec, items, heads, rows, grid, columns);
    }
  }

  lemma SomethingIff(conv: Conventions, row: MappedRow)
    ensures NonBlank(conv, row) <==> SaysSomething(conv, row)
  {}

  lemma EveryRowIff(conv: Conventions, spec: Spec, items: seq<Item>, heads: map<Canonical, nat>, rows: seq<MappedRow>,
                    grid: map<(int, int), Cell>, columns: map<Canonical, int>)
    requires forall r :: 0 <= r < |rows| ==> rows[r] == RowAt(grid, columns, rows[r].number)
    requires forall n: int :: RowAt(grid, columns, n).number == n
    requires forall n: int :: n > spec.headerRow ==>
      (NonBlank(conv, RowAt(grid, columns, n)) <==> exists i :: IsData(conv, spec, items, heads, i) && items[i].row == n)
    ensures (forall n: int :: n > spec.headerRow && NonBlank(conv, RowAt(grid, columns, n)) ==> RowAt(grid, columns, n) in rows)
      <==> forall i :: IsData(conv, spec, items, heads, i) ==> HasNumber(rows, items[i].row)
  {
    hide RowAt, NonBlank;
    if forall n: int :: n > spec.headerRow && NonBlank(conv, RowAt(grid, columns, n)) ==> RowAt(grid, columns, n) in rows {
      forall i | IsData(conv, spec, items, heads, i) ensures HasNumber(rows, items[i].row) {
        assert RowAt(grid, columns, items[i].row) in rows;
      }
    }
    if forall i :: IsData(conv, spec, items, heads, i) ==> HasNumber(rows, items[i].row) {
      forall n: int | n > spec.headerRow && NonBlank(conv, RowAt(grid, columns, n)) ensures RowAt(grid, columns, n) in rows {
        var i :| IsData(conv, spec, items, heads, i) && items[i].row == n;
        var r :| 0 <= r < |rows| && rows[r].number == n;
      }
    }
  }

  // ---------- The whole table ----------

  /** The table is read off the items: headers as written, rows below the header in order, each with its cells, and
      every row that says something. */
  ghost predicate ReadOff(conv: Conventions, spec: Spec, items: seq<Item>, heads: map<Canonical, nat>, t: MappedTable) {
    && Headed(conv, spec, items, heads)
    && t.headers.Keys == heads.Keys && (forall c :: c in heads && heads[c] < |items| ==> t.headers[c] == items[heads[c]].text)
    && t.rows != [] && RowsRead(conv, spec, items, heads, t.rows)
  }

  /** What mapping demands and gives, from the items alone. */
  ghost predicate ReadFrom(conv: Conventions, spec: Spec, csv: bool, sourceHash: string, items: seq<Item>, t: MappedTable) {
    && ItemsProper(conv, csv, sourceHash, items) && HeadingsApart(conv, spec, items)
    && exists heads :: ReadOff(conv, spec, items, heads, t)
  }

  lemma MappedByIff(conv: Conventions, spec: Spec, items: seq<Item>, heads: map<Canonical, nat>, t: MappedTable)
    requires PlacesApart(items)
    ensures MappedBy(conv, spec, items, heads, t) <==> ReadOff(conv, spec, items, heads, t)
  {
    LocatedIff(conv, spec, items, heads);
    if Headed(conv, spec, items, heads) {
      forall c | c in heads ensures heads[c] < |items| {
        HeadInside(conv, spec, items, heads, c);
      }
      RowsOfIff(conv, spec, items, heads, t.rows);
      hide Headed, Located, RowsOf, Grid, ColumnsOf, RowsRead, HeadersOf, PlacesApart;
      HeadersAre(items, heads, t);
      assert MappedBy(conv, spec, items, heads, t) <==>
        t.headers == HeadersOf(items, heads) && RowsOf(conv, spec, Grid(items), ColumnsOf(items, heads), t.rows) && t.rows != [];
    }
  }

  lemma HeadersAre(items: seq<Item>, heads: map<Canonical, nat>, t: MappedTable)
    requires forall c :: c in heads ==> heads[c] < |items|
    ensures t.headers == HeadersOf(items, heads) <==>
      t.headers.Keys == heads.Keys && forall c :: c in heads && heads[c] < |items| ==> t.headers[c] == items[heads[c]].text
  {}

  /** The mapped table is the one read off the items, and a table is mapped exactly when one can be. */
  lemma MappedIff(conv: Conventions, spec: Spec, csv: bool, sourceHash: string, items: seq<Item>, t: MappedTable)
    ensures IsMapped(conv, spec, csv, sourceHash, items, t) <==> ReadFrom(conv, spec, csv, sourceHash, items, t)
  {
    CleanIff(conv, csv, sourceHash, items);
    assert HeadersDistinct(conv, spec, items) <==> HeadingsApart(conv, spec, items);
    hide AllClean, HeadersDistinct, HeadingsApart, MappedBy, ReadOff;
    if PlacesApart(items) {
      forall heads ensures MappedBy(conv, spec, items, heads, t) <==> ReadOff(conv, spec, items, heads, t) {
        MappedByIff(conv, spec, items, heads, t);
      }
    }
  }
}

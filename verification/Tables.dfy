/** Mapping the selected table cells of one source onto the manifest's canonical columns. */
module Tables {
  import opened Json
  import opened Ordering

  /** Library text operations, left uninterpreted: `str.strip`, `str.casefold`, `normalized_identity`,
      `_normalize_header`, and `float` (None where it raises or is not finite). */
  datatype Conventions = Conventions(
    strip: string -> string, casefold: string -> string, norm: string -> string, header: string -> string,
    float: string -> Option<real>)

  datatype DocumentType = ProcessFlow | Pfmea | ControlPlan | Sop | InspectionRecord

  datatype Canonical =
    | ProcessStepId | FailureModeId | CharacteristicId | SpecialCharacteristic | Effect | ControlId
    | Target | Minimum | Maximum | Unit | ControlMethod | Frequency | ReactionPlan
    | SopDocumentId | SopRevision | ControlPlanDocumentId | ControlPlanRevision

  function RequiredColumns(t: DocumentType): set<Canonical> {
    match t
    case ProcessFlow => {ProcessStepId}
    case Pfmea => {ProcessStepId, FailureModeId, CharacteristicId, SpecialCharacteristic}
    case ControlPlan => {ProcessStepId, ControlId, CharacteristicId, Target, Minimum, Maximum, Unit,
                         ControlMethod, Frequency, ReactionPlan}
    case Sop => {ProcessStepId, CharacteristicId, Target, Minimum, Maximum, Unit}
    case InspectionRecord => {ProcessStepId, CharacteristicId, Target, Minimum, Maximum, Unit,
                              SopDocumentId, SopRevision, ControlPlanDocumentId, ControlPlanRevision}
  }

  function OptionalColumns(t: DocumentType): set<Canonical> {
    if t.Pfmea? then {Effect} else {}
  }

  /** `columns` is an insertion-ordered dictionary from canonical names to source headers. */
  datatype Spec = Spec(sourceId: string, documentId: string, documentType: DocumentType,
                       columns: seq<(Canonical, string)>, headerRow: nat)

  function ColumnKeys(spec: Spec): set<Canonical> {
    set k: nat | k < |spec.columns| :: spec.columns[k].0
  }

  /** What `_validate_document_spec` establishes about the column mapping. */
  ghost predicate SpecOk(conv: Conventions, spec: Spec) {
    && (forall i, j :: 0 <= i < j < |spec.columns| ==> spec.columns[i].0 != spec.columns[j].0)
    && (forall i, j :: 0 <= i < j < |spec.columns| ==> conv.header(spec.columns[i].1) != conv.header(spec.columns[j].1))
    && RequiredColumns(spec.documentType) <= ColumnKeys(spec)
    && ColumnKeys(spec) <= RequiredColumns(spec.documentType) + OptionalColumns(spec.documentType)
  }

  /** One selected evidence item, before its coordinates are known to be positive. */
  datatype Item = Item(row: int, column: int, text: string, locator: string, sourceHash: string, kind: string,
                       formula: bool, potentialFormula: bool)

  datatype Cell = Cell(row: int, column: int, text: string, locator: string, sourceHash: string, kind: string)

  datatype MappedRow = MappedRow(number: int, cells: map<Canonical, Cell>)

  datatype MappedTable = MappedTable(rows: seq<MappedRow>, headers: map<Canonical, string>)

  predicate FiniteLiteral(conv: Conventions, text: string) {
    conv.strip(text) != "" && conv.float(conv.strip(text)).Some?
  }

  /** Formula, coordinate, locator and hash checks on one item. */
  predicate Clean(conv: Conventions, csv: bool, sourceHash: string, item: Item) {
    && !item.formula
    && (item.potentialFormula ==> csv && FiniteLiteral(conv, item.text))
    && item.row > 0 && item.column > 0
    && conv.strip(item.locator) != ""
    && item.sourceHash == sourceHash
  }

  function CellOf(item: Item): Cell {
    Cell(item.row, item.column, item.text, item.locator, item.sourceHash, item.kind)
  }

  function Coordinate(item: Item): (int, int) {
    (item.row, item.column)
  }

  /** The selected cells by coordinate. */
  ghost function Grid(items: seq<Item>): map<(int, int), Cell> {
    if items == [] then map[]
    else Grid(items[..|items| - 1])[Coordinate(items[|items| - 1]) := CellOf(items[|items| - 1])]
  }

  ghost function SeenLocators(items: seq<Item>): set<string> {
    set k: nat | k < |items| :: items[k].locator
  }

  /** Every item passes its own checks and repeats no earlier coordinate or locator. */
  ghost predicate AllClean(conv: Conventions, csv: bool, sourceHash: string, items: seq<Item>) {
    items != [] ==>
      var n := |items| - 1;
      && AllClean(conv, csv, sourceHash, items[..n])
      && Clean(conv, csv, sourceHash, items[n])
      && Coordinate(items[n]) !in Grid(items[..n]) && items[n].locator !in SeenLocators(items[..n])
  }

  lemma {:induction false} AllCleanPrefix(conv: Conventions, csv: bool, sourceHash: string, items: seq<Item>, k: nat)
    requires AllClean(conv, csv, sourceHash, items) && k <= |items|
    ensures AllClean(conv, csv, sourceHash, items[..k])
  {
    if k < |items| {
      var n := |items| - 1;
      AllCleanPrefix(conv, csv, sourceHash, items[..n], k);
      assert items[..n][..k] == items[..k];
    } else {
      assert items[..k] == items;
    }
  }

  lemma {:induction false} GridMember(items: seq<Item>, k: nat)
    requires k < |items|
    ensures Coordinate(items[k]) in Grid(items)
  {
    if k < |items| - 1 {
      assert items[..|items| - 1][k] == items[k];
      GridMember(items[..|items| - 1], k);
    }
  }

  /** Clean tables have pairwise distinct coordinates. */
  lemma CleanApart(conv: Conventions, csv: bool, sourceHash: string, items: seq<Item>, i: nat, j: nat)
    requires AllClean(conv, csv, sourceHash, items) && i < j < |items|
    ensures Coordinate(items[i]) != Coordinate(items[j]) && items[i].locator != items[j].locator
  {
    AllCleanPrefix(conv, csv, sourceHash, items, j + 1);
    var front := items[..j + 1];
    assert front[..|front| - 1] == items[..j];
    assert items[..j][i] == items[i];
    GridMember(items[..j], i);
    assert items[..j][i].locator in SeenLocators(items[..j]);
  }

  predicate IsHeader(conv: Conventions, spec: Spec, item: Item) {
    item.row == spec.headerRow && conv.strip(item.text) != ""
  }

  ghost predicate HeadersDistinct(conv: Conventions, spec: Spec, items: seq<Item>) {
    forall i, j :: 0 <= i < j < |items| && IsHeader(conv, spec, items[i]) && IsHeader(conv, spec, items[j]) ==>
      conv.header(items[i].text) != conv.header(items[j].text)
  }

  /** `item` is the header cell the manifest asks for under one of its columns. */
  predicate Heads(conv: Conventions, spec: Spec, item: Item, requested: string) {
    IsHeader(conv, spec, item) && conv.header(item.text) == conv.header(requested)
  }

  ghost predicate HeaderFound(conv: Conventions, spec: Spec, items: seq<Item>, requested: string) {
    exists i :: 0 <= i < |items| && Heads(conv, spec, items[i], requested)
  }

  ghost predicate HeadersFound(conv: Conventions, spec: Spec, items: seq<Item>) {
    forall k :: 0 <= k < |spec.columns| ==> HeaderFound(conv, spec, items, spec.columns[k].1)
  }

  /** The header item chosen for each canonical column. */
  ghost predicate Located(conv: Conventions, spec: Spec, items: seq<Item>, chosen: map<Canonical, nat>) {
    && chosen.Keys == ColumnKeys(spec)
    && (forall k :: 0 <= k < |spec.columns| ==>
          chosen[spec.columns[k].0] < |items| && Heads(conv, spec, items[chosen[spec.columns[k].0]], spec.columns[k].1))
  }

  function ColumnsOf(items: seq<Item>, chosen: map<Canonical, nat>): map<Canonical, int>
    requires forall c :: c in chosen ==> chosen[c] < |items|
  {
    map c | c in chosen :: items[chosen[c]].column
  }

  function HeadersOf(items: seq<Item>, chosen: map<Canonical, nat>): map<Canonical, string>
    requires forall c :: c in chosen ==> chosen[c] < |items|
  {
    map c | c in chosen :: items[chosen[c]].text
  }

  /** Row `n` of the grid, cut down to the canonical columns. */
  function RowAt(grid: map<(int, int), Cell>, columns: map<Canonical, int>, n: int): MappedRow {
    MappedRow(n, map c | c in columns && (n, columns[c]) in grid :: grid[(n, columns[c])])
  }

  predicate NonBlank(conv: Conventions, row: MappedRow) {
    exists c :: c in row.cells && conv.strip(row.cells[c].text) != ""
  }

  ghost predicate Ascending(rows: seq<MappedRow>) {
    forall i, j :: 0 <= i < j < |rows| ==> rows[i].number < rows[j].number
  }

  /** `rows` are exactly the grid's nonblank rows below the header, in order. */
  ghost predicate RowsOf(conv: Conventions, spec: Spec, grid: map<(int, int), Cell>, columns: map<Canonical, int>,
                         rows: seq<MappedRow>)
  {
    && Ascending(rows)
    && (forall r :: 0 <= r < |rows| ==>
          rows[r].number > spec.headerRow && rows[r] == RowAt(grid, columns, rows[r].number) && NonBlank(conv, rows[r]))
    && (forall n: int :: n > spec.headerRow && NonBlank(conv, RowAt(grid, columns, n)) ==> RowAt(grid, columns, n) in rows)
  }

  ghost predicate HasData(conv: Conventions, spec: Spec, grid: map<(int, int), Cell>, columns: map<Canonical, int>) {
    exists n: int :: n > spec.headerRow && NonBlank(conv, RowAt(grid, columns, n))
  }

  /** `t` holds the data of the columns whose headers are the chosen items. */
  ghost predicate MappedBy(conv: Conventions, spec: Spec, items: seq<Item>, chosen: map<Canonical, nat>, t: MappedTable) {
    && Located(conv, spec, items, chosen) && t.headers == HeadersOf(items, chosen)
    && RowsOf(conv, spec, Grid(items), ColumnsOf(items, chosen), t.rows) && t.rows != []
  }

  /** `t` is the mapped table of these items: clean, unambiguous, every requested header there, some data. */
  ghost predicate IsMapped(conv: Conventions, spec: Spec, csv: bool, sourceHash: string, items: seq<Item>, t: MappedTable) {
    && AllClean(conv, csv, sourceHash, items) && HeadersDistinct(conv, spec, items)
    && exists chosen :: MappedBy(conv, spec, items, chosen, t)
  }

  /** Distinct headers leave one choice. */
  lemma LocatedUnique(conv: Conventions, spec: Spec, items: seq<Item>, a: map<Canonical, nat>, b: map<Canonical, nat>)
    requires HeadersDistinct(conv, spec, items) && Located(conv, spec, items, a) && Located(conv, spec, items, b)
    ensures a == b && HeadersFound(conv, spec, items)
  {
    forall c | c in a ensures a[c] == b[c] {
      var k: nat :| k < |spec.columns| && spec.columns[k].0 == c;
      SameHeader(conv, spec, items, a[c], b[c], spec.columns[k].1);
    }
    forall k | 0 <= k < |spec.columns| ensures HeaderFound(conv, spec, items, spec.columns[k].1) {
      assert Heads(conv, spec, items[a[spec.columns[k].0]], spec.columns[k].1);
    }
  }

  lemma SameHeader(conv: Conventions, spec: Spec, items: seq<Item>, i: nat, j: nat, requested: string)
    requires HeadersDistinct(conv, spec, items) && i < |items| && j < |items|
    requires Heads(conv, spec, items[i], requested) && Heads(conv, spec, items[j], requested)
    ensures i == j
  {}

  lemma MappedHasData(conv: Conventions, spec: Spec, items: seq<Item>, chosen: map<Canonical, nat>, t: MappedTable)
    requires MappedBy(conv, spec, items, chosen, t)
    ensures HasData(conv, spec, Grid(items), ColumnsOf(items, chosen))
  {
    hide Located, Grid, ColumnsOf, HeadersOf, NonBlank, RowAt;
    assert NonBlank(conv, t.rows[0]);
  }

  lemma NothingMapped(conv: Conventions, spec: Spec, csv: bool, sourceHash: string, items: seq<Item>, chosen: map<Canonical, nat>)
    requires AllClean(conv, csv, sourceHash, items) && HeadersDistinct(conv, spec, items) && HeadersFound(conv, spec, items) ==>
      Located(conv, spec, items, chosen) && !HasData(conv, spec, Grid(items), ColumnsOf(items, chosen))
    ensures forall t :: !IsMapped(conv, spec, csv, sourceHash, items, t)
  {
    hide AllClean, HeadersDistinct, Located, HeadersFound, Grid, ColumnsOf, HeadersOf, NonBlank;
    forall t ensures !IsMapped(conv, spec, csv, sourceHash, items, t) {
      if IsMapped(conv, spec, csv, sourceHash, items, t) {
        var other :| MappedBy(conv, spec, items, other, t);
        LocatedUnique(conv, spec, items, other, other);
        MappedHasData(conv, spec, items, other, t);
        LocatedUnique(conv, spec, items, other, chosen);
      }
    }
  }

  /** `_map_table`: succeeds exactly on clean, unambiguous tables that hold every requested header and
      some data, and then yields the rows of those columns in row order. */
  method MapTable(conv: Conventions, spec: Spec, csv: bool, sourceHash: string, items: seq<Item>)
    returns (r: Option<MappedTable>, ghost chosen: map<Canonical, nat>)
    requires forall i, j :: 0 <= i < j < |spec.columns| ==> spec.columns[i].0 != spec.columns[j].0
    ensures r.Some? ==> IsMapped(conv, spec, csv, sourceHash, items, r.value) && MappedBy(conv, spec, items, chosen, r.value)
    ensures r.None? ==> forall t :: !IsMapped(conv, spec, csv, sourceHash, items, t)
  {
    hide AllClean, HeadersDistinct, HeadersFound, HasData;
    chosen := map[];
    var cells := IndexCells(conv, csv, sourceHash, items);
    if cells.None? { NothingMapped(conv, spec, csv, sourceHash, items, chosen); return None, chosen; }
    var headers := IndexHeaders(conv, spec, items);
    if headers.None? { NothingMapped(conv, spec, csv, sourceHash, items, chosen); return None, chosen; }
    var located := LocateColumns(conv, spec, items, headers.value);
    if located.None? { NothingMapped(conv, spec, csv, sourceHash, items, chosen); return None, chosen; }
    chosen := located.value;
    var columns := ColumnsOf(items, located.value);
    var rows := CollectRows(conv, spec, items, cells.value, columns);
    if rows == [] { NothingMapped(conv, spec, csv, sourceHash, items, chosen); }
    r := if rows == [] then None else Some(MappedTable(rows, HeadersOf(items, located.value)));
    assert r.Some? ==> MappedBy(conv, spec, items, chosen, r.value);
  }

  method IndexCells(conv: Conventions, csv: bool, sourceHash: string, items: seq<Item>)
    returns (r: Option<map<(int, int), Cell>>)
    ensures r.Some? <==> AllClean(conv, csv, sourceHash, items)
    ensures r.Some? ==> r.value == Grid(items)
  {
    var cells: map<(int, int), Cell> := map[];
    var locators: set<string> := {};
    var k := 0;
    while k < |items|
      invariant 0 <= k <= |items|
      invariant AllClean(conv, csv, sourceHash, items[..k])
      invariant cells == Grid(items[..k]) && locators == SeenLocators(items[..k])
    {
      var item := items[k];
      assert items[..k + 1][..k] == items[..k];
      if !Clean(conv, csv, sourceHash, item) || Coordinate(item) in cells || item.locator in locators {
        assert !AllClean(conv, csv, sourceHash, items[..k + 1]);
        if AllClean(conv, csv, sourceHash, items) {
          AllCleanPrefix(conv, csv, sourceHash, items, k + 1);
        }
        return None;
      }
      locators := locators + {item.locator};
      cells := cells[Coordinate(item) := CellOf(item)];
      k := k + 1;
    }
    assert items[..k] == items;
    return Some(cells);
  }

  /** The header cells by normalized text; refused when two of them coincide. */
  method IndexHeaders(conv: Conventions, spec: Spec, items: seq<Item>) returns (r: Option<map<string, nat>>)
    ensures r.Some? <==> HeadersDistinct(conv, spec, items)
    ensures r.Some? ==>
      && (forall s :: s in r.value ==> r.value[s] < |items| && IsHeader(conv, spec, items[r.value[s]]) && conv.header(items[r.value[s]].text) == s)
      && (forall i :: 0 <= i < |items| && IsHeader(conv, spec, items[i]) ==> conv.header(items[i].text) in r.value)
  {
    var headers: map<string, nat> := map[];
    var k := 0;
    while k < |items|
      invariant 0 <= k <= |items|
      invariant forall i, j :: 0 <= i < j < k && IsHeader(conv, spec, items[i]) && IsHeader(conv, spec, items[j]) ==>
        conv.header(items[i].text) != conv.header(items[j].text)
      invariant forall s :: s in headers ==> headers[s] < k && IsHeader(conv, spec, items[headers[s]]) && conv.header(items[headers[s]].text) == s
      invariant forall i :: 0 <= i < k && IsHeader(conv, spec, items[i]) ==> conv.header(items[i].text) in headers
    {
      if IsHeader(conv, spec, items[k]) {
        if conv.header(items[k].text) in headers {
          return None;
        }
        headers := headers[conv.header(items[k].text) := k];
      }
      k := k + 1;
    }
    return Some(headers);
  }

  lemma HeaderListed(conv: Conventions, spec: Spec, items: seq<Item>, headers: map<string, nat>, requested: string)
    requires forall s :: s in headers ==> headers[s] < |items| && IsHeader(conv, spec, items[headers[s]]) && conv.header(items[headers[s]].text) == s
    requires forall i :: 0 <= i < |items| && IsHeader(conv, spec, items[i]) ==> conv.header(items[i].text) in headers
    ensures HeaderFound(conv, spec, items, requested) <==> conv.header(requested) in headers
    ensures conv.header(requested) in headers ==> Heads(conv, spec, items[headers[conv.header(requested)]], requested)
  {}

  method LocateColumns(conv: Conventions, spec: Spec, items: seq<Item>, headers: map<string, nat>)
    returns (r: Option<map<Canonical, nat>>)
    requires forall i, j :: 0 <= i < j < |spec.columns| ==> spec.columns[i].0 != spec.columns[j].0
    requires forall s :: s in headers ==> headers[s] < |items| && IsHeader(conv, spec, items[headers[s]]) && conv.header(items[headers[s]].text) == s
    requires forall i :: 0 <= i < |items| && IsHeader(conv, spec, items[i]) ==> conv.header(items[i].text) in headers
    ensures r.Some? <==> HeadersFound(conv, spec, items)
    ensures r.Some? ==> Located(conv, spec, items, r.value)
  {
    hide Heads, IsHeader, HeaderFound;
    var chosen: map<Canonical, nat> := map[];
    var k := 0;
    while k < |spec.columns|
      invariant 0 <= k <= |spec.columns|
      invariant forall c :: c in chosen <==> exists j :: 0 <= j < k && spec.columns[j].0 == c
      invariant forall j :: 0 <= j < k ==> HeaderFound(conv, spec, items, spec.columns[j].1)
      invariant forall j :: 0 <= j < k ==>
        chosen[spec.columns[j].0] < |items| && Heads(conv, spec, items[chosen[spec.columns[j].0]], spec.columns[j].1)
    {
      var (canonical, requested) := spec.columns[k];
      HeaderListed(conv, spec, items, headers, requested);
      if conv.header(requested) !in headers {
        return None;
      }
      chosen := chosen[canonical := headers[conv.header(requested)]];
      k := k + 1;
    }
    assert chosen.Keys == ColumnKeys(spec);
    return Some(chosen);
  }

  predicate IntLe(a: int, b: int) { a <= b }

  lemma SortedDistinct(s: seq<int>)
    requires forall i, j :: 0 <= i < j < |s| ==> s[i] != s[j]
    ensures forall i, j :: 0 <= i < j < |Sort(s, IntLe)| ==> Sort(s, IntLe)[i] < Sort(s, IntLe)[j]
  {
    var r := Sort(s, IntLe);
    SortSorts(s, IntLe);
    NamesKept(s, r, (x: int) => x);
    forall i, j | 0 <= i < j < |r| ensures r[i] < r[j] {
      assert IntLe(r[i], r[j]);
    }
  }

  predicate InMappedColumn(spec: Spec, columns: map<Canonical, int>, item: Item) {
    item.row > spec.headerRow && item.column in columns.Values
  }

  /** Grid rows below the header with a cell in a mapped column, ascending and without repetition. */
  method RowNumbers(spec: Spec, items: seq<Item>, columns: map<Canonical, int>) returns (numbers: seq<int>)
    ensures forall i, j :: 0 <= i < j < |numbers| ==> numbers[i] < numbers[j]
    ensures forall n :: n in numbers <==> n > spec.headerRow && RowAt(Grid(items), columns, n).cells != map[]
  {
    var listed: seq<int> := [];
    ghost var from: map<int, nat> := map[];
    var k := 0;
    while k < |items|
      invariant 0 <= k <= |items|
      invariant forall i, j :: 0 <= i < j < |listed| ==> listed[i] != listed[j]
      invariant forall i :: 0 <= i < k && InMappedColumn(spec, columns, items[i]) ==> items[i].row in listed
      invariant forall n :: n in listed ==>
        n in from && from[n] < |items| && items[from[n]].row == n && InMappedColumn(spec, columns, items[from[n]])
    {
      if InMappedColumn(spec, columns, items[k]) && items[k].row !in listed {
        listed, from := listed + [items[k].row], from[items[k].row := k];
      }
      k := k + 1;
    }
    numbers := Sort(listed, IntLe);
    SortedDistinct(listed);
    assert forall n :: n in numbers <==> n in multiset(numbers);
    assert forall n :: n in listed <==> n in multiset(listed);
    forall n ensures n in listed <==> n > spec.headerRow && RowAt(Grid(items), columns, n).cells != map[] {
      if n in listed {
        RowHasCell(spec, items, columns, from[n]);
      }
      if n > spec.headerRow && RowAt(Grid(items), columns, n).cells != map[] {
        var i := CellInRow(spec, items, columns, n);
      }
    }
  }

  lemma {:induction false} GridFrom(items: seq<Item>, p: (int, int)) returns (k: nat)
    requires p in Grid(items)
    ensures k < |items| && Coordinate(items[k]) == p
  {
    k := |items| - 1;
    if Coordinate(items[k]) != p {
      k := GridFrom(items[..k], p);
    }
  }

  lemma RowHasCell(spec: Spec, items: seq<Item>, columns: map<Canonical, int>, i: nat)
    requires i < |items| && InMappedColumn(spec, columns, items[i])
    ensures RowAt(Grid(items), columns, items[i].row).cells != map[]
  {
    GridMember(items, i);
    var c :| c in columns && columns[c] == items[i].column;
    assert c in RowAt(Grid(items), columns, items[i].row).cells;
  }

  lemma CellInRow(spec: Spec, items: seq<Item>, columns: map<Canonical, int>, n: int) returns (i: nat)
    requires n > spec.headerRow && RowAt(Grid(items), columns, n).cells != map[]
    ensures i < |items| && items[i].row == n && InMappedColumn(spec, columns, items[i])
  {
    var cells := RowAt(Grid(items), columns, n).cells;
    assert cells.Keys != {};
    var c :| c in cells;
    i := GridFrom(items, (n, columns[c]));
  }

  lemma RowFacts(conv: Conventions, grid: map<(int, int), Cell>, columns: map<Canonical, int>, n: int)
    ensures RowAt(grid, columns, n).number == n
    ensures NonBlank(conv, RowAt(grid, columns, n)) ==> RowAt(grid, columns, n).cells != map[]
  {}

  method CollectRows(conv: Conventions, spec: Spec, items: seq<Item>, grid: map<(int, int), Cell>, columns: map<Canonical, int>)
    returns (rows: seq<MappedRow>)
    requires grid == Grid(items)
    ensures RowsOf(conv, spec, grid, columns, rows)
    ensures rows != [] <==> HasData(conv, spec, grid, columns)
  {
    hide RowAt, NonBlank, Grid;
    var numbers := RowNumbers(spec, items, columns);
    rows := [];
    var k := 0;
    while k < |numbers|
      invariant 0 <= k <= |numbers|
      invariant Ascending(rows)
      invariant forall r :: 0 <= r < |rows| ==>
        rows[r].number > spec.headerRow && rows[r] == RowAt(grid, columns, rows[r].number) && NonBlank(conv, rows[r])
      invariant forall r :: 0 <= r < |rows| && k < |numbers| ==> rows[r].number < numbers[k]
      invariant forall j :: 0 <= j < k && NonBlank(conv, RowAt(grid, columns, numbers[j])) ==>
        RowAt(grid, columns, numbers[j]) in rows
    {
      assert numbers[k] in numbers;
      var row := RowAt(grid, columns, numbers[k]);
      RowFacts(conv, grid, columns, numbers[k]);
      if NonBlank(conv, row) {
        rows := rows + [row];
      }
      k := k + 1;
    }
    forall n: int | n > spec.headerRow && NonBlank(conv, RowAt(grid, columns, n)) ensures RowAt(grid, columns, n) in rows {
      RowFacts(conv, grid, columns, n);
      assert n in numbers;
    }
    if rows != [] {
      assert NonBlank(conv, RowAt(grid, columns, rows[0].number));
    }
  }

  // ---------- What the later stages rely on ----------

  /** Rows in strictly ascending order whose cells lie in their row, under named headers. */
  ghost predicate WellFormed(conv: Conventions, spec: Spec, sourceHash: string, t: MappedTable) {
    && t.headers.Keys == ColumnKeys(spec)
    && Ascending(t.rows)
    && (forall c :: c in t.headers ==> conv.strip(t.headers[c]) != "")
    && (forall r :: 0 <= r < |t.rows| ==> RowWellFormed(conv, spec, sourceHash, t.rows[r]))
  }

  ghost predicate RowWellFormed(conv: Conventions, spec: Spec, sourceHash: string, row: MappedRow) {
    && row.number > 0
    && row.cells.Keys <= ColumnKeys(spec)
    && (forall c :: c in row.cells ==> CellWellFormed(conv, sourceHash, row.number, row.cells[c]))
    && (forall c, d :: c in row.cells && d in row.cells && c != d ==> row.cells[c].column != row.cells[d].column)
  }

  ghost predicate CellWellFormed(conv: Conventions, sourceHash: string, number: int, cell: Cell) {
    cell.row == number && cell.column > 0 && cell.sourceHash == sourceHash && conv.strip(cell.locator) != ""
  }

  lemma {:induction false} GridCells(conv: Conventions, csv: bool, sourceHash: string, items: seq<Item>, p: (int, int))
    requires AllClean(conv, csv, sourceHash, items) && p in Grid(items)
    ensures var cell := Grid(items)[p];
      && (cell.row, cell.column) == p && cell.row > 0 && cell.column > 0
      && cell.sourceHash == sourceHash && conv.strip(cell.locator) != ""
  {
    var n := |items| - 1;
    if p != Coordinate(items[n]) {
      GridCells(conv, csv, sourceHash, items[..n], p);
    }
  }

  /** Distinct requested headers sit over distinct columns. */
  lemma ChosenColumnsDiffer(conv: Conventions, csv: bool, sourceHash: string, spec: Spec, items: seq<Item>,
                            chosen: map<Canonical, nat>, c: Canonical, d: Canonical)
    requires AllClean(conv, csv, sourceHash, items) && SpecOk(conv, spec)
    requires Located(conv, spec, items, chosen) && c in chosen && d in chosen && c != d
    ensures items[chosen[c]].column != items[chosen[d]].column
  {
    var i: nat :| i < |spec.columns| && spec.columns[i].0 == c;
    var j: nat :| j < |spec.columns| && spec.columns[j].0 == d;
    assert Heads(conv, spec, items[chosen[c]], spec.columns[i].1) && Heads(conv, spec, items[chosen[d]], spec.columns[j].1);
    assert conv.header(spec.columns[i].1) != conv.header(spec.columns[j].1) by {
      assert i < j || j < i;
    }
    assert chosen[c] != chosen[d];
    if chosen[c] < chosen[d] {
      CleanApart(conv, csv, sourceHash, items, chosen[c], chosen[d]);
    } else {
      CleanApart(conv, csv, sourceHash, items, chosen[d], chosen[c]);
    }
  }

  /** Every mapped table is well formed: the cell uniqueness the provenance list relies on. */
  lemma MappedTableWellFormed(conv: Conventions, csv: bool, sourceHash: string, spec: Spec, items: seq<Item>,
                              chosen: map<Canonical, nat>, t: MappedTable)
    requires SpecOk(conv, spec) && AllClean(conv, csv, sourceHash, items) && Located(conv, spec, items, chosen)
    requires t.headers == HeadersOf(items, chosen)
    requires RowsOf(conv, spec, Grid(items), ColumnsOf(items, chosen), t.rows)
    ensures WellFormed(conv, spec, sourceHash, t)
  {
    var grid, columns := Grid(items), ColumnsOf(items, chosen);
    forall c | c in t.headers ensures conv.strip(t.headers[c]) != "" {
      var k: nat :| k < |spec.columns| && spec.columns[k].0 == c;
      assert Heads(conv, spec, items[chosen[c]], spec.columns[k].1);
    }
    forall r | 0 <= r < |t.rows| ensures RowWellFormed(conv, spec, sourceHash, t.rows[r]) {
      var row := t.rows[r];
      assert row == RowAt(grid, columns, row.number) && NonBlank(conv, row);
      forall c | c in row.cells
        ensures CellWellFormed(conv, sourceHash, row.number, row.cells[c])
        ensures row.number > 0 && row.cells[c].column == columns[c]
      {
        GridCells(conv, csv, sourceHash, items, (row.number, columns[c]));
      }
      forall c, d | c in row.cells && d in row.cells && c != d ensures row.cells[c].column != row.cells[d].column {
        ChosenColumnsDiffer(conv, csv, sourceHash, spec, items, chosen, c, d);
      }
    }
  }
}

/** The closure check against what the two derivations produce: it accepts the builder's own provenance,
    and nothing else up to Python equality of values. */
module HonestClosure {
  import opened Json
  import opened Ordering
  import opened Provenance
  import opened EvidencePlanning
  import opened Tables
  import opened Roles
  import opened Feeds
  import opened Builder
  import opened PlanBuilder
  import opened Agreement
  import opened Closure
  import opened Documents

  // ---------- The parser cells ----------

  function CellOfRow(ctx: Context, row: MappedRow, c: Canonical): ParserCell {
    ParserCell(c, row.number, SourceAt(ctx, row, c))
  }

  ghost predicate IsParserCell(ctx: Context, cell: ParserCell, n: nat)
    requires n <= |Rows(ctx)|
  {
    exists i: nat, c :: i < n && c in Rows(ctx)[i].cells && cell == CellOfRow(ctx, Rows(ctx)[i], c)
  }

  /** Every cell of every mapped row, once. */
  ghost predicate AllParserCells(ctx: Context, cells: seq<ParserCell>) {
    && (forall cell :: cell in cells <==> IsParserCell(ctx, cell, |Rows(ctx)|))
    && (forall i, j :: 0 <= i < j < |cells| ==> cells[i] != cells[j])
  }

  predicate CellLe(a: ParserCell, b: ParserCell) {
    || a.rowNumber < b.rowNumber
    || (a.rowNumber == b.rowNumber
        && (a.source.column < b.source.column || (a.source.column == b.source.column && TextLe(Name(a.canonicalName), Name(b.canonicalName)))))
  }

  /** `parser_cells`. */
  method ParserCells(ctx: Context) returns (cells: seq<ParserCell>)
    requires Sound(ctx)
    ensures AllParserCells(ctx, cells)
  {
    hide SpecOk, SourceAt;
    SpecDistinct(ctx);
    var listed: seq<ParserCell> := [];
    var i := 0;
    while i < |Rows(ctx)|
      invariant 0 <= i <= |Rows(ctx)|
      invariant forall cell :: cell in listed <==> IsParserCell(ctx, cell, i)
      invariant forall a, b :: 0 <= a < b < |listed| ==> listed[a] != listed[b]
    {
      var row := Rows(ctx)[i];
      EarlierCellsDiffer(ctx, i);
      var own := RowCells(ctx, i);
      NextRowCells(ctx, i, own);
      DistinctTogether(listed, own);
      listed := listed + own;
      i := i + 1;
    }
    cells := Sort(listed, CellLe);
    SortKeepsCells(listed);
  }

  lemma SpecDistinct(ctx: Context)
    requires Sound(ctx)
    ensures forall i, j :: 0 <= i < j < |ctx.spec.columns| ==> ctx.spec.columns[i].0 != ctx.spec.columns[j].0
    ensures forall i: nat, c :: i < |Rows(ctx)| && c in Rows(ctx)[i].cells ==> c in ColumnKeys(ctx.spec)
  {
    forall i: nat, c | i < |Rows(ctx)| && c in Rows(ctx)[i].cells ensures c in ColumnKeys(ctx.spec) {
      assert RowWellFormed(ctx.conv, ctx.spec, ctx.sourceHash, Rows(ctx)[i]);
    }
  }

  lemma DistinctTogether(a: seq<ParserCell>, b: seq<ParserCell>)
    requires forall i, j :: 0 <= i < j < |a| ==> a[i] != a[j]
    requires forall i, j :: 0 <= i < j < |b| ==> b[i] != b[j]
    requires forall cell :: cell in a ==> cell !in b
    ensures forall i, j :: 0 <= i < j < |a + b| ==> (a + b)[i] != (a + b)[j]
    ensures forall cell :: cell in a + b <==> cell in a || cell in b
  {
    forall i, j | 0 <= i < j < |a + b| ensures (a + b)[i] != (a + b)[j] {
      assert i < |a| ==> (a + b)[i] in a;
      assert j >= |a| ==> (a + b)[j] in b;
    }
  }

  /** One row's cells, in column order. */
  method RowCells(ctx: Context, i: nat) returns (cells: seq<ParserCell>)
    requires Sound(ctx) && i < |Rows(ctx)|
    ensures forall cell :: cell in cells <==> OfRowCells(ctx, Rows(ctx)[i], cell)
    ensures forall a, b :: 0 <= a < b < |cells| ==> cells[a] != cells[b]
  {
    hide *;
    var row := Rows(ctx)[i];
    cells := [];
    var k := 0;
    NothingSeen(ctx);
    NoCellYet(ctx, row);
    while k < |ctx.spec.columns|
      invariant 0 <= k <= |ctx.spec.columns|
      invariant forall cell :: cell in cells <==> cell.canonicalName in SeenColumns(ctx, k) && OfRowCells(ctx, row, cell)
      invariant forall a, b :: 0 <= a < b < |cells| ==> cells[a] != cells[b]
    {
      var c := ctx.spec.columns[k].0;
      SeenNext(ctx, k);
      OneMoreCell(ctx, row, SeenColumns(ctx, k), cells, c);
      if c in row.cells {
        cells := cells + [CellOfRow(ctx, row, c)];
      }
      k := k + 1;
    }
    forall cell ensures cell in cells <==> OfRowCells(ctx, row, cell) {
      CellColumn(ctx, i, cell);
    }
  }

  ghost function SeenColumns(ctx: Context, k: nat): set<Canonical>
    requires k <= |ctx.spec.columns|
  {
    set j: nat | j < k :: ctx.spec.columns[j].0
  }

  lemma NothingSeen(ctx: Context)
    ensures SeenColumns(ctx, 0) == {}
  {}

  lemma NoCellYet(ctx: Context, row: MappedRow)
    requires SeenColumns(ctx, 0) == {}
    ensures forall cell: ParserCell :: !(cell.canonicalName in SeenColumns(ctx, 0) && OfRowCells(ctx, row, cell))
  {}

  lemma SeenNext(ctx: Context, k: nat)
    requires Sound(ctx) && k < |ctx.spec.columns|
    ensures ctx.spec.columns[k].0 !in SeenColumns(ctx, k)
    ensures SeenColumns(ctx, k + 1) == SeenColumns(ctx, k) + {ctx.spec.columns[k].0}
  {}

  lemma OneMoreCell(ctx: Context, row: MappedRow, seen: set<Canonical>, cells: seq<ParserCell>, c: Canonical)
    requires c !in seen
    requires forall cell :: cell in cells <==> cell.canonicalName in seen && OfRowCells(ctx, row, cell)
    requires forall a, b :: 0 <= a < b < |cells| ==> cells[a] != cells[b]
    ensures var more := if c in row.cells then cells + [CellOfRow(ctx, row, c)] else cells;
      && (forall cell :: cell in more <==> cell.canonicalName in seen + {c} && OfRowCells(ctx, row, cell))
      && (forall a, b :: 0 <= a < b < |more| ==> more[a] != more[b])
  {
    hide SourceAt;
    if c in row.cells {
      DistinctTogether(cells, [CellOfRow(ctx, row, c)]);
    }
  }

  lemma CellColumn(ctx: Context, i: nat, cell: ParserCell)
    requires Sound(ctx) && i < |Rows(ctx)|
    ensures OfRowCells(ctx, Rows(ctx)[i], cell) ==> cell.canonicalName in SeenColumns(ctx, |ctx.spec.columns|)
  {
    SpecDistinct(ctx);
    assert ColumnKeys(ctx.spec) == SeenColumns(ctx, |ctx.spec.columns|);
  }

  ghost predicate OfRowCells(ctx: Context, row: MappedRow, cell: ParserCell) {
    cell.canonicalName in row.cells && cell == CellOfRow(ctx, row, cell.canonicalName)
  }

  lemma RowNumbersAscend(ctx: Context, i: nat, j: nat)
    requires Sound(ctx) && i < j < |Rows(ctx)|
    ensures Rows(ctx)[i].number < Rows(ctx)[j].number
  {}

  lemma EarlierCellsDiffer(ctx: Context, i: nat)
    requires Sound(ctx) && i < |Rows(ctx)|
    ensures forall cell :: IsParserCell(ctx, cell, i) ==> cell.rowNumber != Rows(ctx)[i].number
  {
    forall cell | IsParserCell(ctx, cell, i) ensures cell.rowNumber != Rows(ctx)[i].number {
      var j: nat, c :| j < i && c in Rows(ctx)[j].cells && cell == CellOfRow(ctx, Rows(ctx)[j], c);
      RowNumbersAscend(ctx, j, i);
    }
  }

  lemma NextRowCells(ctx: Context, i: nat, own: seq<ParserCell>)
    requires i < |Rows(ctx)|
    requires forall cell :: cell in own <==> OfRowCells(ctx, Rows(ctx)[i], cell)
    ensures forall cell :: IsParserCell(ctx, cell, i + 1) <==> IsParserCell(ctx, cell, i) || cell in own
    ensures forall cell :: cell in own ==> cell.rowNumber == Rows(ctx)[i].number
  {
    hide SourceAt;
    forall cell ensures IsParserCell(ctx, cell, i + 1) <==> IsParserCell(ctx, cell, i) || cell in own {
      if IsParserCell(ctx, cell, i + 1) {
        var j: nat, c :| j < i + 1 && c in Rows(ctx)[j].cells && cell == CellOfRow(ctx, Rows(ctx)[j], c);
        assert j < i ==> IsParserCell(ctx, cell, i);
      }
    }
  }

  lemma SortKeepsCells(listed: seq<ParserCell>)
    requires forall a, b :: 0 <= a < b < |listed| ==> listed[a] != listed[b]
    ensures forall cell :: cell in Sort(listed, CellLe) <==> cell in listed
    ensures forall a, b :: 0 <= a < b < |Sort(listed, CellLe)| ==> Sort(listed, CellLe)[a] != Sort(listed, CellLe)[b]
  {
    hide CellLe;
    var sorted := Sort(listed, CellLe);
    assert forall cell :: cell in sorted <==> cell in multiset(sorted);
    assert forall cell :: cell in listed <==> cell in multiset(listed);
    NamesKept(listed, sorted, (c: ParserCell) => c);
  }

  // ---------- Honest evidence ----------

  /** The document, plan, cells and registry one build hands to the check. */
  ghost predicate Honest(ev: Evidence, ctx: Context) {
    && Sound(ctx) && Rows(ctx) != [] && Mappable(ctx)
    && ev.conv == ctx.conv && ev.sourceId == ctx.spec.sourceId
    && ev.document.documentId == ctx.spec.documentId && ev.document.sourceHash == ctx.sourceHash
    && Complete(FieldsOf(ctx), ev.registry)
    && ev.document.fields == FinalFields(FieldsOf(ctx), ev.registry)
    && ev.document.root.Obj? && "fields" in ev.document.root.members && ev.document.root.members["fields"] == ev.document.fields
    && AllParserCells(ctx, ev.cells)
    && IsProvenance(ctx, ev.expected)
  }

  ghost predicate WithinLimits(ev: Evidence, mappings: seq<Entry>) {
    |ev.cells| <= MAX_ARTIFACT_MAPPINGS && |ev.expected| <= MAX_ARTIFACT_MAPPINGS && |mappings| <= MAX_ARTIFACT_MAPPINGS
  }

  predicate IsOverlaid(l: RefLeaf) {
    l.RefDocumentType? || l.RefSourceHash?
  }

  /** An entry the reference overlay adds. */
  ghost predicate ReferenceExpected(ev: Evidence, ctx: Context, e: Entry) {
    ctx.spec.documentType.InspectionRecord? && exists t, l ::
      IsOverlaid(l) && RefName(t) in ev.registry && e == ReferenceEntry(ev.registry, t, l)
  }

  /** The document's whole provenance: cells, row locators and reference identities. */
  ghost predicate FullyExpected(ev: Evidence, ctx: Context, e: Entry) {
    Expected(ctx, e) || ReferenceExpected(ev, ctx, e)
  }

  ghost predicate IsFullProvenance(ev: Evidence, ctx: Context, entries: seq<Entry>) {
    DistinctTargets(entries) && forall e :: e in entries <==> FullyExpected(ev, ctx, e)
  }

  // ---------- Groups list cells in row order ----------

  lemma RowRead(ctx: Context, i: nat)
    requires Mappable(ctx) && i < |Rows(ctx)|
    ensures Readable(ctx, Rows(ctx)[i])
  {}

  lemma CellPresent(ctx: Context, row: MappedRow, c: Canonical)
    requires Readable(ctx, row) && c in ColumnKeys(ctx.spec)
    ensures c in row.cells
  {
    assert CellValue(ctx.conv, row, c).Some?;
  }

  lemma SourceRow(ctx: Context, i: nat, c: Canonical)
    requires Sound(ctx) && i < |Rows(ctx)| && c in Rows(ctx)[i].cells
    ensures SourceAt(ctx, Rows(ctx)[i], c).row == Rows(ctx)[i].number > 0
    ensures SourceAt(ctx, Rows(ctx)[i], c).column > 0
    ensures SourceAt(ctx, Rows(ctx)[i], c).sourceHash == ctx.sourceHash
    ensures ctx.conv.strip(SourceAt(ctx, Rows(ctx)[i], c).locator) != ""
    ensures ctx.conv.strip(SourceAt(ctx, Rows(ctx)[i], c).header) != ""
  {
    assert RowWellFormed(ctx.conv, ctx.spec, ctx.sourceHash, Rows(ctx)[i]);
    assert CellWellFormed(ctx.conv, ctx.sourceHash, Rows(ctx)[i].number, Rows(ctx)[i].cells[c]);
    assert c in ctx.table.headers;
  }

  /** A row contributes at most one cell to a leaf. */
  lemma OnePerRow(ctx: Context, i: nat, t: Path) returns (own: seq<Feed>)
    requires Sound(ctx) && Mappable(ctx) && i < |Rows(ctx)|
    ensures own == Contributors(FeedsOf(ctx, Rows(ctx)[i], RowPairs(ctx, i)), t) + Contributors(FeedsOf(ctx, Rows(ctx)[i], RefPairs(ctx)), t)
    ensures |own| <= 1 && forall k :: 0 <= k < |own| ==> own[k].source.row == Rows(ctx)[i].number
  {
    hide *;
    RefSide(ctx, i, t);
    OwnSide(ctx, i, t);
    own := Contributors(FeedsOf(ctx, Rows(ctx)[i], RowPairs(ctx, i)), t) + Contributors(FeedsOf(ctx, Rows(ctx)[i], RefPairs(ctx)), t);
  }

  lemma RefSide(ctx: Context, i: nat, t: Path)
    requires Sound(ctx) && Mappable(ctx) && i < |Rows(ctx)|
    ensures var refs := Contributors(FeedsOf(ctx, Rows(ctx)[i], RefPairs(ctx)), t);
      && |refs| <= 1 && (forall k :: 0 <= k < |refs| ==> refs[k].source.row == Rows(ctx)[i].number)
      && (refs != [] ==> Contributors(FeedsOf(ctx, Rows(ctx)[i], RowPairs(ctx, i)), t) == [])
  {
    RefRoles(ctx);
    hide RowPairs, RefPairs, FeedsOf, Contributors, Sound, PathOf, Mappable, SourceAt, FeedAt;
    if k :| 0 <= k < |RefPairs(ctx)| && PathOf(RefPairs(ctx)[k].0) == t {
      NoReferenceInRow(ctx, i, RefPairs(ctx)[k].0.target, RefPairs(ctx)[k].0.leaf);
      OneContributor(ctx, Rows(ctx)[i], RefPairs(ctx), k);
      FeedRow(ctx, i, RefPairs(ctx)[k]);
    } else {
      NoContributor(ctx, Rows(ctx)[i], RefPairs(ctx), t);
    }
  }

  lemma FeedRow(ctx: Context, i: nat, p: Pair)
    requires Sound(ctx) && Mappable(ctx) && i < |Rows(ctx)| && p.1 in ColumnKeys(ctx.spec)
    ensures FeedAt(ctx, Rows(ctx)[i], p).source.row == Rows(ctx)[i].number
  {
    RowRead(ctx, i);
    CellPresent(ctx, Rows(ctx)[i], p.1);
    SourceRow(ctx, i, p.1);
  }

  lemma OwnSide(ctx: Context, i: nat, t: Path)
    requires Sound(ctx) && Mappable(ctx) && i < |Rows(ctx)|
    ensures var own := Contributors(FeedsOf(ctx, Rows(ctx)[i], RowPairs(ctx, i)), t);
      |own| <= 1 && forall k :: 0 <= k < |own| ==> own[k].source.row == Rows(ctx)[i].number
  {
    RowRoles(ctx, i);
    hide RowPairs, FeedsOf, Contributors, Sound, PathOf, Mappable, SourceAt, StepIndex;
    if k :| 0 <= k < |RowPairs(ctx, i)| && PathOf(RowPairs(ctx, i)[k].0) == t {
      OneContributor(ctx, Rows(ctx)[i], RowPairs(ctx, i), k);
      assert OfRow(ctx, i, RowPairs(ctx, i)[k]);
      FeedRow(ctx, i, RowPairs(ctx, i)[k]);
    } else {
      NoContributor(ctx, Rows(ctx)[i], RowPairs(ctx, i), t);
    }
  }

  ghost predicate RowsAscend(feeds: seq<Feed>) {
    forall i, j :: 0 <= i < j < |feeds| ==> feeds[i].source.row < feeds[j].source.row
  }

  /** A leaf's cells come from ever later rows. */
  lemma {:induction false} GroupAscends(ctx: Context, n: nat, t: Path)
    requires Sound(ctx) && Mappable(ctx) && n <= |Rows(ctx)|
    ensures RowsAscend(Contributors(PlanFeeds(ctx, n), t))
    ensures n > 0 ==> forall k :: 0 <= k < |Contributors(PlanFeeds(ctx, n), t)| ==>
      Contributors(PlanFeeds(ctx, n), t)[k].source.row <= Rows(ctx)[n - 1].number
  {
    hide RowPairs, RefPairs, FeedsOf, Contributors, Sound, Mappable;
    NothingFed(t);
    if n > 0 {
      GroupAscends(ctx, n - 1, t);
      PlanStep(ctx, n, t);
      var own := OnePerRow(ctx, n - 1, t);
      var before, after := Contributors(PlanFeeds(ctx, n - 1), t), Contributors(PlanFeeds(ctx, n), t);
      assert after == before + own;
      if n > 1 {
        RowNumbersAscend(ctx, n - 2, n - 1);
      }
      assert n == 1 ==> before == [];
    }
  }

  lemma AscendingSorted(feeds: seq<Feed>)
    requires RowsAscend(feeds)
    ensures Sort(SourcesOf(feeds), SourceLe) == SourcesOf(feeds) && NoRepeats(SourcesOf(feeds))
  {
    var sources := SourcesOf(feeds);
    forall i, j | 0 <= i < j < |sources| ensures SourceLe(sources[i], sources[j]) && sources[i] != sources[j] {
      assert feeds[i].source.row < feeds[j].source.row;
    }
    SortFixesSorted(sources, SourceLe);
  }

  lemma GroupSources(group: seq<Feed>)
    requires group != [] && RowsAscend(group)
    ensures var e := Finalized(GroupEntry(group));
      IsCellEntry(e) && e.value == group[0].value && EntrySources(e) == SourcesOf(group) && NoRepeats(EntrySources(e))
  {
    AscendingSorted(group);
    hide Sort, RowsAscend, NoRepeats;
    if |group| == 1 {
      assert SourcesOf(group) == [group[0].source];
    }
  }

  /** The cells of an expected entry are its leaf's contributors, already in order. */
  lemma ExpectedSources(ctx: Context, e: Entry)
    requires Sound(ctx) && Mappable(ctx) && CellEntry(ctx, e)
    ensures var group := Contributors(PlanFeeds(ctx, |Rows(ctx)|), e.target);
      && group != [] && IsCellEntry(e) && e.value == group[0].value
      && EntrySources(e) == SourcesOf(group) && NoRepeats(EntrySources(e))
  {
    hide Sound, Mappable, PlanFeeds, Contributors, RowsAscend, GroupEntry, Finalized, EntrySources, NoRepeats;
    GroupAscends(ctx, |Rows(ctx)|, e.target);
    GroupSources(Contributors(PlanFeeds(ctx, |Rows(ctx)|), e.target));
  }

  lemma TakenCell(ctx: Context, f: Feed, i: nat, p: Pair)
    requires Sound(ctx) && i < |Rows(ctx)| && TakenFrom(ctx, f, i, p)
    ensures f.target == PathOf(p.0) && p.1 in Rows(ctx)[i].cells && p.1 in ColumnKeys(ctx.spec)
    ensures f.source == SourceAt(ctx, Rows(ctx)[i], p.1) && f.value == ValueOf(ctx, Rows(ctx)[i], p.1)
  {
    RefRoles(ctx);
    hide Sound, PathOf, StepIndex, SourceAt, RefPairs;
    if p in RefPairs(ctx) {
      var k :| 0 <= k < |RefPairs(ctx)| && RefPairs(ctx)[k] == p;
    }
  }

  /** Where a contribution comes from. */
  lemma GroupMember(ctx: Context, t: Path, k: nat) returns (i: nat, p: Pair)
    requires Sound(ctx) && Mappable(ctx) && k < |Contributors(PlanFeeds(ctx, |Rows(ctx)|), t)|
    ensures i < |Rows(ctx)| && TakenFrom(ctx, Contributors(PlanFeeds(ctx, |Rows(ctx)|), t)[k], i, p) && PathOf(p.0) == t
    ensures p.1 in Rows(ctx)[i].cells && p.1 in ColumnKeys(ctx.spec)
  {
    FedByRows(ctx);
    hide Sound, Mappable, PlanFeeds, PathOf, Contributors, SourceAt, TakenFrom, ColumnKeys;
    var feeds := PlanFeeds(ctx, |Rows(ctx)|);
    ContributorsMembers(feeds, t);
    var f := Contributors(feeds, t)[k];
    assert f in Contributors(feeds, t);
    assert FromSomeRow(ctx, f, |Rows(ctx)|);
    i, p :| i < |Rows(ctx)| && TakenFrom(ctx, f, i, p);
    TakenCell(ctx, f, i, p);
  }

  // ---------- The plan is in order ----------

  lemma KnownSource(ctx: Context, cells: seq<ParserCell>, i: nat, c: Canonical)
    requires AllParserCells(ctx, cells) && i < |Rows(ctx)| && c in Rows(ctx)[i].cells
    ensures SourceAt(ctx, Rows(ctx)[i], c) in CellSources(cells)
  {
    assert IsParserCell(ctx, CellOfRow(ctx, Rows(ctx)[i], c), |Rows(ctx)|);
    assert CellOfRow(ctx, Rows(ctx)[i], c) in cells;
  }

  lemma HonestCells(ev: Evidence, ctx: Context)
    requires Honest(ev, ctx) && |ev.cells| <= MAX_ARTIFACT_MAPPINGS
    ensures CellsOk(ev)
  {
    hide Mappable, SourceAt, FieldsOf, SpecOk, IsProvenance;
    forall k | 0 <= k < |ev.cells| ensures CellOk(ev, ev.cells[k]) {
      assert IsParserCell(ctx, ev.cells[k], |Rows(ctx)|);
      var i: nat, c :| i < |Rows(ctx)| && c in Rows(ctx)[i].cells && ev.cells[k] == CellOfRow(ctx, Rows(ctx)[i], c);
      SourceRow(ctx, i, c);
      SourceIds(ctx, Rows(ctx)[i], c);
    }
    forall a, b | 0 <= a < b < |ev.cells| ensures ev.cells[a].source != ev.cells[b].source {
      assert IsParserCell(ctx, ev.cells[a], |Rows(ctx)|) && IsParserCell(ctx, ev.cells[b], |Rows(ctx)|);
      SameSourceSameCell(ctx, ev.cells[a], ev.cells[b]);
    }
    FirstStepKnown(ev, ctx);
  }

  lemma SourceIds(ctx: Context, row: MappedRow, c: Canonical)
    ensures SourceAt(ctx, row, c).sourceId == ctx.spec.sourceId && SourceAt(ctx, row, c).documentId == ctx.spec.documentId
  {}

  lemma FirstStepKnown(ev: Evidence, ctx: Context)
    requires Honest(ev, ctx)
    ensures |ev.cells| > 0
  {
    RowRead(ctx, 0);
    RowRoles(ctx, 0);
    StepLeads(ctx, 0);
    CellPresent(ctx, Rows(ctx)[0], ProcessStepId);
    KnownSource(ctx, ev.cells, 0, ProcessStepId);
  }

  lemma SameSourceSameCell(ctx: Context, a: ParserCell, b: ParserCell)
    requires Sound(ctx) && IsParserCell(ctx, a, |Rows(ctx)|) && IsParserCell(ctx, b, |Rows(ctx)|)
    ensures a.source == b.source ==> a == b
  {
    var i: nat, c :| i < |Rows(ctx)| && c in Rows(ctx)[i].cells && a == CellOfRow(ctx, Rows(ctx)[i], c);
    var j: nat, d :| j < |Rows(ctx)| && d in Rows(ctx)[j].cells && b == CellOfRow(ctx, Rows(ctx)[j], d);
    hide Sound, IsParserCell, SourceAt;
    if a.source == b.source {
      SourceFixesCell(ctx, i, c, j, d);
    }
  }

  lemma SourceFixesCell(ctx: Context, i: nat, c: Canonical, j: nat, d: Canonical)
    requires Sound(ctx) && i < |Rows(ctx)| && j < |Rows(ctx)| && c in Rows(ctx)[i].cells && d in Rows(ctx)[j].cells
    requires SourceAt(ctx, Rows(ctx)[i], c) == SourceAt(ctx, Rows(ctx)[j], d)
    ensures i == j && c == d
  {
    SourceRow(ctx, i, c);
    SourceRow(ctx, j, d);
    if i < j {
      RowNumbersAscend(ctx, i, j);
    } else if j < i {
      RowNumbersAscend(ctx, j, i);
    } else {
      assert RowWellFormed(ctx.conv, ctx.spec, ctx.sourceHash, Rows(ctx)[i]);
    }
  }

  lemma LocatorSources(ctx: Context, i: nat)
    requires Sound(ctx) && Mappable(ctx) && i < |Rows(ctx)| && !ctx.spec.documentType.ProcessFlow?
    ensures LocatorEntry(ctx, i).source == SourceAt(ctx, Rows(ctx)[i], AnchorColumn(ctx))
    ensures LocatorEntry(ctx, i).value == Str(SourceAt(ctx, Rows(ctx)[i], AnchorColumn(ctx)).locator)
    ensures LocatorEntry(ctx, i).anchor == PathOf(AnchorRole(ctx, i)) && LocatorEntry(ctx, i).derivation == LOCATOR_CONTRACT
    ensures AnchorColumn(ctx) in Rows(ctx)[i].cells && AnchorColumn(ctx) in ColumnKeys(ctx.spec)
  {
    RowRead(ctx, i);
    assert AnchorColumn(ctx) in RequiredColumns(ctx.spec.documentType);
    CellPresent(ctx, Rows(ctx)[i], AnchorColumn(ctx));
  }

  lemma HonestRole(ev: Evidence, ctx: Context, e: Entry)
    requires Honest(ev, ctx) && Expected(ctx, e)
    ensures RoleOk(CellSources(ev.cells), e)
  {
    hide Mappable, SourceAt, FieldsOf, Sound, PlanFeeds, Contributors, PathOf, IsProvenance, LocatorEntry, CellSources;
    if CellEntry(ctx, e) {
      ExpectedSources(ctx, e);
      forall j | 0 <= j < |EntrySources(e)| ensures EntrySources(e)[j] in CellSources(ev.cells) {
        var i, p := GroupMember(ctx, e.target, j);
        KnownSource(ctx, ev.cells, i, p.1);
      }
    } else {
      var i: nat :| i < |Rows(ctx)| && e == LocatorEntry(ctx, i);
      LocatorSources(ctx, i);
      LocatorKind(ctx, i);
      KnownSource(ctx, ev.cells, i, AnchorColumn(ctx));
    }
  }

  lemma LocatorKind(ctx: Context, i: nat)
    requires i < |Rows(ctx)|
    ensures LocatorEntry(ctx, i).DerivedLocator?
  {}

  /** Every mapped column of a row feeds some leaf. */
  lemma ColumnFeeds(ctx: Context, i: nat, c: Canonical) returns (p: Pair)
    requires Sound(ctx) && i < |Rows(ctx)| && c in ColumnKeys(ctx.spec)
    ensures p.1 == c && (p in RowPairs(ctx, i) || p in RefPairs(ctx))
  {
    hide StepIndex, RequiredColumns, OptionalColumns, ColumnKeys, WellFormed, BodyPairs, RefPairs;
    assert c in RequiredColumns(ctx.spec.documentType) + OptionalColumns(ctx.spec.documentType);
    if c.ProcessStepId? {
      p := RowPairs(ctx, i)[0];
    } else {
      p := BodyColumnFeeds(ctx, i, c);
      BodyInRow(ctx, i, p);
    }
  }

  lemma BodyInRow(ctx: Context, i: nat, p: Pair)
    requires i < |Rows(ctx)|
    ensures p in BodyPairs(ctx, i) ==> p in RowPairs(ctx, i)
  {
    hide BodyPairs, StepIndex;
    if p in BodyPairs(ctx, i) {
      var k :| 0 <= k < |BodyPairs(ctx, i)| && BodyPairs(ctx, i)[k] == p;
      assert RowPairs(ctx, i)[k + 1] == p;
    }
  }

  lemma BodyColumnFeeds(ctx: Context, i: nat, c: Canonical) returns (p: Pair)
    requires c in ColumnKeys(ctx.spec) && !c.ProcessStepId?
    requires c in RequiredColumns(ctx.spec.documentType) + OptionalColumns(ctx.spec.documentType)
    ensures p.1 == c && (p in BodyPairs(ctx, i) || p in RefPairs(ctx))
  {
    hide ColumnKeys;
    if c.SopDocumentId? { p := RefColumns()[0]; }
    else if c.SopRevision? { p := RefColumns()[1]; }
    else if c.ControlPlanDocumentId? { p := RefColumns()[2]; }
    else if c.ControlPlanRevision? { p := RefColumns()[3]; }
    else if ctx.spec.documentType.Pfmea? {
      p := (RiskRole(i, c), c);
      RiskColumnFeeds(HasEffect(ctx), i, c);
    } else {
      p := (CharRole(i, c), c);
      CharacteristicColumnFeeds(ctx.spec.documentType.ControlPlan?, i, c);
    }
  }

  lemma RiskColumnFeeds(effect: bool, i: nat, c: Canonical)
    requires c.FailureModeId? || c.CharacteristicId? || c.SpecialCharacteristic? || (effect && c.Effect?)
    ensures (RiskRole(i, c), c) in RiskPairs(effect, i)
  {
    var pairs := RiskPairs(effect, i);
    assert pairs[0].1.FailureModeId? && pairs[2].1.CharacteristicId? && pairs[3].1.SpecialCharacteristic?;
    assert effect ==> pairs[4].1.Effect?;
  }

  lemma CharacteristicColumnFeeds(controls: bool, i: nat, c: Canonical)
    requires c in RequiredColumns(if controls then ControlPlan else Sop)
    ensures (CharRole(i, c), c) in CharacteristicPairs(controls, i)
  {
    ColumnListed(controls, c);
    var k :| 0 <= k < |CharacteristicColumns(controls)| && CharacteristicColumns(controls)[k] == c;
    assert CharacteristicPairs(controls, i)[k] == (CharRole(i, c), c);
  }

  lemma ColumnListed(controls: bool, c: Canonical)
    requires c in RequiredColumns(if controls then ControlPlan else Sop)
    ensures c in CharacteristicColumns(controls)
  {
    var columns := CharacteristicColumns(controls);
    assert columns[0].CharacteristicId? && columns[1].ProcessStepId?;
    if controls {
      assert columns[2].ControlId? && columns[3].Target? && columns[4].Minimum? && columns[5].Maximum? && columns[6].Unit?;
      assert columns[7].ControlMethod? && columns[8].Frequency? && columns[9].ReactionPlan?;
    } else {
      assert columns[2].Target? && columns[3].Minimum? && columns[4].Maximum? && columns[5].Unit?;
    }
  }

  lemma {:induction false} FedInPlan(ctx: Context, n: nat, i: nat, p: Pair)
    requires i < n <= |Rows(ctx)| && (p in RowPairs(ctx, i) || p in RefPairs(ctx))
    ensures FeedAt(ctx, Rows(ctx)[i], p) in PlanFeeds(ctx, n)
  {
    hide RowPairs, RefPairs, FeedAt;
    var row := Rows(ctx)[n - 1];
    if i < n - 1 {
      FedInPlan(ctx, n - 1, i, p);
    } else if p in RowPairs(ctx, i) {
      var k :| 0 <= k < |RowPairs(ctx, i)| && RowPairs(ctx, i)[k] == p;
      assert FeedsOf(ctx, row, RowPairs(ctx, i))[k] == FeedAt(ctx, row, p);
    } else {
      var k :| 0 <= k < |RefPairs(ctx)| && RefPairs(ctx)[k] == p;
      assert FeedsOf(ctx, row, RefPairs(ctx))[k] == FeedAt(ctx, row, p);
    }
  }

  /** The expected entry of a fed leaf. */
  lemma FedExpected(ctx: Context, f: Feed) returns (e: Entry, k: nat)
    requires Sound(ctx) && Mappable(ctx) && f in PlanFeeds(ctx, |Rows(ctx)|)
    ensures e.target == f.target && CellEntry(ctx, e) && Expected(ctx, e)
    ensures k < |EntrySources(e)| && EntrySources(e)[k] == f.source
  {
    var feeds := PlanFeeds(ctx, |Rows(ctx)|);
    hide Sound, Mappable, PlanFeeds, Contributors, GroupEntry, Finalized;
    ContributorsMembers(feeds, f.target);
    var group := Contributors(feeds, f.target);
    k :| 0 <= k < |group| && group[k] == f;
    e := Finalized(GroupEntry(group));
    GroupTarget(feeds, f.target);
    FinalizedTarget(GroupEntry(group));
    assert CellEntry(ctx, e);
    ExpectedSources(ctx, e);
  }

  lemma HonestConsumption(ev: Evidence, ctx: Context)
    requires Honest(ev, ctx)
    ensures SourceSet(ev.expected) == CellSources(ev.cells)
  {
    hide Mappable, SourceAt, FieldsOf, Sound, IsProvenance, Expected, EntrySources, IsParserCell, FinalFields, Complete;
    forall s | s in SourceSet(ev.expected) ensures s in CellSources(ev.cells) {
      var k: nat, j: nat :| k < |ev.expected| && j < |EntrySources(ev.expected[k])| && EntrySources(ev.expected[k])[j] == s;
      ListedExpected(ctx, ev.expected, ev.expected[k]);
      HonestRole(ev, ctx, ev.expected[k]);
    }
    forall s | s in CellSources(ev.cells) ensures s in SourceSet(ev.expected) {
      var k: nat :| k < |ev.cells| && ev.cells[k].source == s;
      var e, j := CellConsumed(ev, ctx, k);
      ListedExpected(ctx, ev.expected, e);
      var a: nat :| a < |ev.expected| && ev.expected[a] == e;
      assert EntrySources(ev.expected[a])[j] == s;
    }
  }

  lemma CellConsumed(ev: Evidence, ctx: Context, k: nat) returns (e: Entry, j: nat)
    requires Honest(ev, ctx) && k < |ev.cells|
    ensures Expected(ctx, e) && j < |EntrySources(e)| && EntrySources(e)[j] == ev.cells[k].source
  {
    assert IsParserCell(ctx, ev.cells[k], |Rows(ctx)|);
    hide Mappable, SourceAt, FieldsOf, IsProvenance, Expected, EntrySources, PlanFeeds, FinalFields, Complete;
    var i: nat, c :| i < |Rows(ctx)| && c in Rows(ctx)[i].cells && ev.cells[k] == CellOfRow(ctx, Rows(ctx)[i], c);
    SpecDistinct(ctx);
    hide Sound;
    var p := ColumnFeeds(ctx, i, c);
    FedInPlan(ctx, |Rows(ctx)|, i, p);
    e, j := FedExpected(ctx, FeedAt(ctx, Rows(ctx)[i], p));
  }

  lemma HonestPlan(ev: Evidence, ctx: Context)
    requires Honest(ev, ctx) && |ev.expected| <= MAX_ARTIFACT_MAPPINGS
    ensures PlanOk(ev)
  {
    HonestConsumption(ev, ctx);
    assert DistinctTargets(ev.expected);
    hide Mappable, FieldsOf, Sound, IsProvenance, Expected, RoleOk, SourceSet, CellSources, FinalFields, Complete, AllParserCells;
    forall k | 0 <= k < |ev.expected| ensures RoleOk(CellSources(ev.cells), ev.expected[k]) {
      ListedExpected(ctx, ev.expected, ev.expected[k]);
      HonestRole(ev, ctx, ev.expected[k]);
    }
  }
}

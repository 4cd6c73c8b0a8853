/** The smallest source there is, a process flow of one step, taken through the whole pipeline: the assumptions
    of the agreement and closure theorems can be met. */
module OneStep {
  import opened Json
  import opened Ordering
  import opened Provenance
  import opened Tables
  import opened Roles
  import opened Feeds
  import opened Builder
  import opened Agreement
  import opened Documents
  import opened Closure
  import opened HonestClosure
  import opened ClosureTheorem
  import opened ClosureExact
  import opened Submitted

  /** A readable text: nothing is left of it only after stripping. */
  predicate Visible(conv: Conventions, text: string) {
    conv.strip(text) != ""
  }

  function StepRow(text: string, locator: string): MappedRow {
    MappedRow(2, map[ProcessStepId := Cell(2, 1, text, locator, "hash", "CELL")])
  }

  function StepContext(conv: Conventions, header: string, text: string, locator: string): Context {
    Context(conv, Spec("source", "document", ProcessFlow, [(ProcessStepId, header)], 1), "hash",
            MappedTable([StepRow(text, locator)], map[ProcessStepId := header]))
  }

  lemma StepSound(conv: Conventions, header: string, text: string, locator: string)
    requires Visible(conv, header) && Visible(conv, text) && Visible(conv, locator)
    ensures var ctx := StepContext(conv, header, text, locator); Sound(ctx) && Mappable(ctx) && Rows(ctx) != []
  {
    var ctx := StepContext(conv, header, text, locator);
    assert ctx.spec.columns[0].0 == ProcessStepId;
    assert ColumnKeys(ctx.spec) == {ProcessStepId};
    assert ctx.table.headers.Keys == {ProcessStepId};
    assert RowWellFormed(conv, ctx.spec, "hash", ctx.table.rows[0]);
    assert Readable(ctx, Rows(ctx)[0]);
  }

  function StepFeed(ctx: Context): Feed
    requires |Rows(ctx)| == 1
  {
    FeedAt(ctx, Rows(ctx)[0], (StepRole(0), ProcessStepId))
  }

  lemma StepFeeds(conv: Conventions, header: string, text: string, locator: string)
    ensures var ctx := StepContext(conv, header, text, locator);
      PlanFeeds(ctx, 1) == [StepFeed(ctx)]
  {
    var ctx := StepContext(conv, header, text, locator);
    SlotHoldsStep(ctx, 0, 1);
    assert StepsOf(ctx, 0) == [] && |StepsOf(ctx, 1)| == 1;
    assert RowPairs(ctx, 0) == [(StepRole(0), ProcessStepId)];
    assert PlanFeeds(ctx, 0) == [];
  }

  /** The one expected entry. */
  lemma StepExpected(conv: Conventions, header: string, text: string, locator: string, e: Entry)
    ensures var ctx := StepContext(conv, header, text, locator);
      Expected(ctx, e) <==> e == DirectEntry(StepFeed(ctx))
  {
    var ctx := StepContext(conv, header, text, locator);
    StepFeeds(conv, header, text, locator);
    var f := StepFeed(ctx);
    hide FeedAt, PlanFeeds;
    ContributorsStep([], f, e.target);
    assert [] + [f] == [f];
  }

  /** Every such source is honestly built, and the check accepts its one-entry provenance. */
  lemma OneStepAccepted(conv: Conventions, header: string, text: string, locator: string)
    returns (ev: Evidence, ctx: Context, entries: seq<Entry>)
    requires Visible(conv, header) && Visible(conv, text) && Visible(conv, locator)
    ensures Honest(ev, ctx) && IsFullProvenance(ev, ctx, entries) && WithinLimits(ev, entries)
    ensures Closed(ev, entries) && ctx == StepContext(conv, header, text, locator) && entries == [DirectEntry(StepFeed(ctx))]
  {
    ctx := StepContext(conv, header, text, locator);
    StepSound(conv, header, text, locator);
    entries := [DirectEntry(StepFeed(ctx))];
    forall e ensures e in entries <==> Expected(ctx, e) {
      StepExpected(conv, header, text, locator, e);
    }
    var cells := [CellOfRow(ctx, Rows(ctx)[0], ProcessStepId)];
    ev := BuiltEvidence(ctx, map[], cells, entries);
    StepCells(ctx, cells);
    hide Sound, Mappable, Expected;
    assert IsProvenance(ctx, entries);
    assert Complete(FieldsOf(ctx), map[]);
    assert Honest(ev, ctx);
    hide Honest;
    HonestAccepted(ev, ctx, entries);
  }

  /** A document of texts only: its list is also accepted with the row number 2.0 for 2. */
  lemma RealRowAccepted(conv: Conventions, header: string, text: string, locator: string)
    returns (ev: Evidence, ctx: Context, entries: seq<Entry>, ms: seq<Mapping>)
    requires Visible(conv, header) && Visible(conv, text) && Visible(conv, locator)
    ensures Honest(ev, ctx) && IsFullProvenance(ev, ctx, entries) && |entries| == 1 && entries[0].Direct?
    ensures entries[0].value.Str? && entries[0].source.row == 2
    ensures ms == [DirectMapping(entries[0].target, entries[0].value, WrittenRef(entries[0].source).(row := Real(2.0)), entries[0].conversion)]
    ensures Admitted(ev, ms)
  {
    ev, ctx, entries := OneStepAccepted(conv, header, text, locator);
    StepRowTwo(conv, header, text, locator);
    hide *;
    FeedEntry(StepFeed(ctx));
    ms := RealRowOfOne(ev, entries);
  }

  lemma RealRowOfOne(ev: Evidence, entries: seq<Entry>) returns (ms: seq<Mapping>)
    requires Closed(ev, entries) && |entries| == 1 && entries[0].Direct? && entries[0].source.row == 2
    ensures ms == [DirectMapping(entries[0].target, entries[0].value, WrittenRef(entries[0].source).(row := Real(2.0)), entries[0].conversion)]
    ensures Admitted(ev, ms)
  {
    hide *;
    var k;
    ms, k := NeverPinned(ev, entries);
    RealRowTwo(entries[0]);
    OneEntry(entries);
    assert ms == [WithRealRow(Written(entries[0]))];
  }

  lemma FeedEntry(f: Feed)
    ensures DirectEntry(f).Direct? && DirectEntry(f).source == f.source && DirectEntry(f).value == f.value
  {}

  lemma OneEntry(entries: seq<Entry>)
    requires |entries| == 1
    ensures |WrittenAll(entries)| == 1
  {}

  lemma RealRowTwo(e: Entry)
    requires e.Direct? && e.source.row == 2
    ensures WithRealRow(Written(e)) == DirectMapping(e.target, e.value, WrittenRef(e.source).(row := Real(2.0)), e.conversion)
  {}

  lemma StepRowTwo(conv: Conventions, header: string, text: string, locator: string)
    requires Visible(conv, text)
    ensures var ctx := StepContext(conv, header, text, locator);
      |Rows(ctx)| == 1 && StepFeed(ctx).source.row == 2 && StepFeed(ctx).value.Str?
  {
    var ctx := StepContext(conv, header, text, locator);
    assert ValueOf(ctx, Rows(ctx)[0], ProcessStepId) == Str(conv.strip(text));
    assert SourceAt(ctx, Rows(ctx)[0], ProcessStepId).row == 2;
  }

  lemma StepCells(ctx: Context, cells: seq<ParserCell>)
    requires |Rows(ctx)| == 1 && Rows(ctx)[0].cells.Keys == {ProcessStepId} && cells == [CellOfRow(ctx, Rows(ctx)[0], ProcessStepId)]
    ensures AllParserCells(ctx, cells)
  {
    hide CellOfRow;
    assert ProcessStepId in Rows(ctx)[0].cells;
    forall cell ensures cell in cells <==> IsParserCell(ctx, cell, 1) {
      assert cell in cells <==> cell == cells[0];
    }
  }
}

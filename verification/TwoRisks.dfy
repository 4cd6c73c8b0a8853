/** A PFMEA of two risks at one step, the smallest source with an aggregate, row locators and a boolean: the closure
    check takes the integer one for its `true`. */
module TwoRisks {
  import opened Json
  import opened Provenance
  import opened Tables
  import opened Roles
  import opened Feeds
  import opened Builder
  import opened PlanBuilder
  import opened Agreement
  import opened Documents
  import opened Closure
  import opened HonestClosure
  import opened ClosureTheorem
  import opened ClosureExact
  import opened Existence
  import opened ValueKinds
  import opened Submitted

  /** The table's texts: four headers, the shared step and characteristic, two failure modes, a true flag. */
  datatype Texts = Texts(step: string, first: string, second: string, characteristic: string, flag: string, locator: string,
                         stepHeader: string, failureHeader: string, characteristicHeader: string, flagHeader: string)

  predicate Readably(conv: Conventions, t: Texts) {
    && conv.strip(t.step) != "" && conv.strip(t.first) != "" && conv.strip(t.second) != "" && conv.strip(t.characteristic) != ""
    && conv.strip(t.locator) != "" && conv.strip(t.first) != conv.strip(t.second)
    && conv.strip(t.flag) != "" && conv.casefold(conv.strip(t.flag)) == "true"
    && conv.strip(t.stepHeader) != "" && conv.strip(t.failureHeader) != "" && conv.strip(t.characteristicHeader) != ""
    && conv.strip(t.flagHeader) != ""
    && conv.header(t.stepHeader) !in {conv.header(t.failureHeader), conv.header(t.characteristicHeader), conv.header(t.flagHeader)}
    && conv.header(t.failureHeader) !in {conv.header(t.characteristicHeader), conv.header(t.flagHeader)}
    && conv.header(t.characteristicHeader) != conv.header(t.flagHeader)
  }

  const COLUMNS: set<Canonical> := {ProcessStepId, FailureModeId, CharacteristicId, SpecialCharacteristic}

  function Position(c: Canonical): int {
    if c.ProcessStepId? then 1 else if c.FailureModeId? then 2 else if c.CharacteristicId? then 3 else 4
  }

  function CellText(t: Texts, failure: string, c: Canonical): string {
    if c.ProcessStepId? then t.step else if c.FailureModeId? then failure else if c.CharacteristicId? then t.characteristic else t.flag
  }

  function HeaderText(t: Texts, c: Canonical): string {
    if c.ProcessStepId? then t.stepHeader
    else if c.FailureModeId? then t.failureHeader
    else if c.CharacteristicId? then t.characteristicHeader
    else t.flagHeader
  }

  function RiskRow(t: Texts, number: int, failure: string): MappedRow {
    MappedRow(number, map c | c in COLUMNS :: Cell(number, Position(c), CellText(t, failure, c), t.locator, "hash", "CELL"))
  }

  function RiskSpec(t: Texts): Spec {
    Spec("source", "document", Pfmea,
         [(ProcessStepId, t.stepHeader), (FailureModeId, t.failureHeader), (CharacteristicId, t.characteristicHeader),
          (SpecialCharacteristic, t.flagHeader)], 1)
  }

  function RiskContext(conv: Conventions, t: Texts): Context {
    Context(conv, RiskSpec(t), "hash",
            MappedTable([RiskRow(t, 2, t.first), RiskRow(t, 3, t.second)], map c | c in COLUMNS :: HeaderText(t, c)))
  }

  lemma RiskColumns(t: Texts)
    ensures ColumnKeys(RiskSpec(t)) == COLUMNS
  {
    var columns := RiskSpec(t).columns;
    assert columns[0].0 == ProcessStepId && columns[1].0 == FailureModeId && columns[2].0 == CharacteristicId
      && columns[3].0 == SpecialCharacteristic;
  }

  lemma RiskHeadersDiffer(conv: Conventions, t: Texts)
    requires Readably(conv, t)
    ensures var columns := RiskSpec(t).columns;
      forall i, j :: 0 <= i < j < |columns| ==> columns[i].0 != columns[j].0 && conv.header(columns[i].1) != conv.header(columns[j].1)
  {}

  lemma RiskSpecOk(conv: Conventions, t: Texts)
    requires Readably(conv, t)
    ensures SpecOk(conv, RiskSpec(t))
  {
    RiskColumns(t);
    RiskHeadersDiffer(conv, t);
    RiskRequired();
    hide ColumnKeys, RequiredColumns, Readably;
  }

  lemma RiskRequired()
    ensures RequiredColumns(Pfmea) == COLUMNS
  {}

  lemma RiskTexts(conv: Conventions, t: Texts, failure: string, c: Canonical)
    requires Readably(conv, t) && conv.strip(failure) != "" && c in COLUMNS
    ensures conv.strip(CellText(t, failure, c)) != "" && conv.strip(HeaderText(t, c)) != ""
    ensures c.SpecialCharacteristic? ==> conv.casefold(conv.strip(CellText(t, failure, c))) == "true"
  {}

  lemma RiskRowWellFormed(conv: Conventions, t: Texts, number: int, failure: string)
    requires Readably(conv, t) && number > 0
    ensures RowWellFormed(conv, RiskSpec(t), "hash", RiskRow(t, number, failure))
  {
    RiskColumns(t);
    LocatorVisible(conv, t);
    hide ColumnKeys, Readably, CellText;
  }

  lemma LocatorVisible(conv: Conventions, t: Texts)
    requires Readably(conv, t)
    ensures conv.strip(t.locator) != ""
  {}

  lemma RiskRowReadable(conv: Conventions, t: Texts, number: int, failure: string)
    requires Readably(conv, t) && conv.strip(failure) != ""
    ensures Readable(RiskContext(conv, t), RiskRow(t, number, failure))
  {
    RiskColumns(t);
    var row := RiskRow(t, number, failure);
    hide ColumnKeys, Readably, CellText, Position;
    forall c | c in COLUMNS ensures CellValue(conv, row, c).Some? {
      RiskTexts(conv, t, failure, c);
    }
  }

  lemma RiskTableSound(conv: Conventions, t: Texts)
    requires Readably(conv, t)
    ensures Sound(RiskContext(conv, t))
  {
    var ctx := RiskContext(conv, t);
    RiskColumns(t);
    RiskSpecOk(conv, t);
    RiskRowWellFormed(conv, t, 2, t.first);
    RiskRowWellFormed(conv, t, 3, t.second);
    forall c | c in COLUMNS ensures conv.strip(HeaderText(t, c)) != "" {
      RiskTexts(conv, t, t.first, c);
    }
    RowNumbers(t);
    hide SpecOk, RowWellFormed, ColumnKeys, Readably, HeaderText, RiskRow;
    assert ctx.table.headers.Keys == COLUMNS;
  }

  lemma RiskMappable(conv: Conventions, t: Texts)
    requires Readably(conv, t)
    ensures Mappable(RiskContext(conv, t))
  {
    RiskRowReadable(conv, t, 2, t.first);
    RiskRowReadable(conv, t, 3, t.second);
    RisksApart(conv, t);
    hide Readable, Readably, RowsApart, RiskRow;
  }

  lemma RiskSound(conv: Conventions, t: Texts)
    requires Readably(conv, t)
    ensures var ctx := RiskContext(conv, t); Sound(ctx) && Mappable(ctx) && |Rows(ctx)| == 2
  {
    RiskTableSound(conv, t);
    RiskMappable(conv, t);
    hide Sound, Mappable, Readably, RiskRow;
  }

  lemma RowNumbers(t: Texts)
    ensures RiskRow(t, 2, t.first).number == 2 && RiskRow(t, 3, t.second).number == 3
  {}

  lemma RisksApart(conv: Conventions, t: Texts)
    requires Readably(conv, t)
    ensures RowsApart(RiskContext(conv, t), 0, 1)
  {
    var ctx := RiskContext(conv, t);
    assert TextOf(ctx, Rows(ctx)[0], FailureModeId) == conv.strip(t.first) && TextOf(ctx, Rows(ctx)[1], FailureModeId) == conv.strip(t.second);
  }

  /** Both rows feed the one step slot, so its entry is an aggregate. */
  lemma StepShared(conv: Conventions, t: Texts, e: Entry)
    requires Readably(conv, t) && Expected(RiskContext(conv, t), e) && e.target == PathOf(StepRole(0))
    ensures e.Aggregate?
  {
    var ctx := RiskContext(conv, t);
    RiskSound(conv, t);
    SlotsShared(conv, t);
    RowNumbers(t);
    hide Sound, Mappable, RowPairs, PlanFeeds, Readably, RiskRow, Contributors, PathOf, LocatorEntry;
    if LocatorOf(ctx, e, 2) {
      var i: nat :| i < 2 && e == LocatorEntry(ctx, i);
      LocatorTarget(ctx, i);
      PathsDiffer(StepRole(0), LocatorRole(ctx, i));
    }
    FedInPlan(ctx, 2, 0, (StepRole(0), ProcessStepId));
    FedInPlan(ctx, 2, 1, (StepRole(0), ProcessStepId));
    SourcesDiffer(conv, t);
    ContributorsMembers(PlanFeeds(ctx, 2), e.target);
    TwoMembers(Contributors(PlanFeeds(ctx, 2), e.target), StepFeedOf(ctx, 0), StepFeedOf(ctx, 1));
  }

  function StepFeedOf(ctx: Context, i: nat): Feed
    requires i < |Rows(ctx)|
  {
    FeedAt(ctx, Rows(ctx)[i], (StepRole(0), ProcessStepId))
  }

  lemma SourcesDiffer(conv: Conventions, t: Texts)
    ensures var ctx := RiskContext(conv, t);
      StepFeedOf(ctx, 0) != StepFeedOf(ctx, 1) && StepFeedOf(ctx, 0).target == PathOf(StepRole(0)) == StepFeedOf(ctx, 1).target
  {
    var ctx := RiskContext(conv, t);
    hide PathOf;
    assert StepFeedOf(ctx, 0).source.row == 2 && StepFeedOf(ctx, 1).source.row == 3;
  }

  lemma TwoMembers(group: seq<Feed>, f: Feed, g: Feed)
    requires f in group && g in group && f != g
    ensures group != [] && Finalized(GroupEntry(group)).Aggregate?
  {}

  lemma SlotsShared(conv: Conventions, t: Texts)
    requires Readably(conv, t)
    ensures var ctx := RiskContext(conv, t);
      (StepRole(0), ProcessStepId) in RowPairs(ctx, 0) && (StepRole(0), ProcessStepId) in RowPairs(ctx, 1)
  {
    var ctx := RiskContext(conv, t);
    SlotHoldsStep(ctx, 0, 1);
    SlotHoldsStep(ctx, 1, 2);
    OneStepListed(conv, t);
    hide StepsOf, StepIndex, BodyPairs;
    assert RowPairs(ctx, 0)[0] == (StepRole(0), ProcessStepId) && RowPairs(ctx, 1)[0] == (StepRole(0), ProcessStepId);
  }

  lemma OneStepListed(conv: Conventions, t: Texts)
    ensures var ctx := RiskContext(conv, t); |StepsOf(ctx, 1)| == 1 && |StepsOf(ctx, 2)| == 1
  {
    var ctx := RiskContext(conv, t);
    assert StepsOf(ctx, 0) == [];
    assert StepsOf(ctx, 1) == [conv.strip(t.step)];
    assert TextOf(ctx, Rows(ctx)[1], ProcessStepId) == conv.strip(t.step);
  }

  lemma FlagLeaf(conv: Conventions, t: Texts, registry: map<string, Identity>)
    requires Readably(conv, t)
    ensures LeafValue(FieldsOf(RiskContext(conv, t)), registry, RiskRole(0, SpecialCharacteristic)) == Some(Bool(true))
  {
    var ctx := RiskContext(conv, t);
    assert ValueOf(ctx, Rows(ctx)[0], SpecialCharacteristic) == Bool(true);
    assert RiskOf(ctx, Rows(ctx)[0]).special;
    hide StepsOf, RiskOf, Readably;
  }

  /** The check takes a list that says integer one where the expected provenance says true. */
  lemma TruePassesForOne(conv: Conventions, t: Texts)
    returns (ev: Evidence, ctx: Context, entries: seq<Entry>, altered: seq<Entry>, k: nat)
    requires Readably(conv, t)
    ensures Honest(ev, ctx) && IsFullProvenance(ev, ctx, entries) && Closed(ev, entries)
    ensures (exists j :: 0 <= j < |entries| && entries[j].Aggregate?) && (exists j :: 0 <= j < |entries| && entries[j].DerivedLocator?)
    ensures k < |entries| && entries[k].value == Bool(true) && altered == entries[k := WithValue(entries[k], Int(1))]
    ensures Admitted(ev, WrittenAll(altered)) && !IsFullProvenance(ev, ctx, altered)
  {
    ctx := RiskContext(conv, t);
    RiskSound(conv, t);
    NoReferences(ctx);
    FlagLeaf(conv, t, map[]);
    hide *;
    ev, entries := SourcesAccepted(ctx, map[]);
    AggregateAndLocator(conv, t, ev, entries);
    FlagIsAmbiguous(ev, ctx, RiskRole(0, SpecialCharacteristic));
    altered, k := Alter(ev, ctx, entries, RiskRole(0, SpecialCharacteristic));
    WrittenIff(ev, altered);
    TwinOfTrue();
  }

  lemma NoReferences(ctx: Context)
    requires ctx.spec.documentType.Pfmea?
    ensures Complete(FieldsOf(ctx), map[]) && (|Rows(ctx)| == 2 ==> |Rows(ctx)| * 12 + 4 <= MAX_ARTIFACT_MAPPINGS)
  {
    hide StepsOf, RiskOf;
  }

  lemma FlagIsAmbiguous(ev: Evidence, ctx: Context, role: Role)
    requires LeafValue(FieldsOf(ctx), ev.registry, role) == Some(Bool(true))
    ensures !LeafPlain(ev, ctx, role)
  {
    hide FieldsOf, LeafValue;
  }

  lemma TwinOfTrue()
    ensures Ambiguous(Bool(true)) && Twin(Bool(true)) == Int(1)
  {}

  lemma AggregateAndLocator(conv: Conventions, t: Texts, ev: Evidence, entries: seq<Entry>)
    requires Readably(conv, t) && IsFullProvenance(ev, RiskContext(conv, t), entries)
    ensures exists j :: 0 <= j < |entries| && entries[j].Aggregate?
    ensures exists j :: 0 <= j < |entries| && entries[j].DerivedLocator?
  {
    var ctx := RiskContext(conv, t);
    RiskSound(conv, t);
    SlotsShared(conv, t);
    hide Sound, Mappable, RowPairs, Readably, CellEntry, ReferenceExpected, LocatorEntry;
    var e := PairEntry(ctx, 0, (StepRole(0), ProcessStepId));
    StepShared(conv, t, e);
    assert FullyExpected(ev, ctx, e);
    var j :| 0 <= j < |entries| && entries[j] == e;
    var locator := LocatorEntry(ctx, 0);
    LocatorKind(ctx, 0);
    assert LocatorOf(ctx, locator, 2);
    assert FullyExpected(ev, ctx, locator);
    var i :| 0 <= i < |entries| && entries[i] == locator;
  }
}

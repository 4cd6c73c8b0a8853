/** The field builders: one pass over the mapped rows that fills a document's fields and its provenance list. */
module Builder {
  import opened Json
  import opened Provenance
  import opened Tables
  import opened Roles
  import opened Feeds

  datatype Risk = Risk(failureModeId: string, processStepId: string, characteristicId: string,
                       special: bool, locator: string, effect: Option<string>)

  datatype Controls = Controls(controlId: string, controlMethod: string, frequency: string, reactionPlan: string)

  datatype Characteristic = Characteristic(processStepId: string, characteristicId: string,
                                           target: Json, minimum: Json, maximum: Json, unit: string,
                                           locator: string, controls: Option<Controls>)

  datatype Reference = Reference(documentId: string, revision: string)

  datatype Fields =
    | StepFields(steps: seq<string>)
    | RiskFields(steps: seq<string>, risks: seq<Risk>)
    | CharacteristicFields(steps: seq<string>, characteristics: seq<Characteristic>, references: map<RefTarget, Reference>)

  // ---------- What the fields hold ----------

  function RiskOf(ctx: Context, row: MappedRow): Risk {
    Risk(TextOf(ctx, row, FailureModeId), TextOf(ctx, row, ProcessStepId), TextOf(ctx, row, CharacteristicId),
         ValueOf(ctx, row, SpecialCharacteristic) == Bool(true), CellAt(row, FailureModeId).locator,
         if HasEffect(ctx) then Some(TextOf(ctx, row, Effect)) else None)
  }

  function CharacteristicOf(ctx: Context, row: MappedRow): Characteristic {
    Characteristic(TextOf(ctx, row, ProcessStepId), TextOf(ctx, row, CharacteristicId),
      ValueOf(ctx, row, Target), ValueOf(ctx, row, Minimum), ValueOf(ctx, row, Maximum), TextOf(ctx, row, Unit),
      CellAt(row, CharacteristicId).locator,
      if ctx.spec.documentType.ControlPlan? then
        Some(Controls(TextOf(ctx, row, ControlId), TextOf(ctx, row, ControlMethod), TextOf(ctx, row, Frequency), TextOf(ctx, row, ReactionPlan)))
      else None)
  }

  function RisksOf(ctx: Context, n: nat): seq<Risk>
    requires n <= |Rows(ctx)|
  {
    seq(n, i requires 0 <= i < n => RiskOf(ctx, Rows(ctx)[i]))
  }

  function CharacteristicsOf(ctx: Context, n: nat): seq<Characteristic>
    requires n <= |Rows(ctx)|
  {
    seq(n, i requires 0 <= i < n => CharacteristicOf(ctx, Rows(ctx)[i]))
  }

  function ReferencesOf(ctx: Context): map<RefTarget, Reference> {
    if ctx.spec.documentType.InspectionRecord? && Rows(ctx) != [] then
      map[ToSop := Reference(TextOf(ctx, Rows(ctx)[0], SopDocumentId), TextOf(ctx, Rows(ctx)[0], SopRevision)),
          ToControlPlan := Reference(TextOf(ctx, Rows(ctx)[0], ControlPlanDocumentId), TextOf(ctx, Rows(ctx)[0], ControlPlanRevision))]
    else map[]
  }

  function FieldsOf(ctx: Context): Fields {
    var n := |Rows(ctx)|;
    match ctx.spec.documentType
    case ProcessFlow => StepFields(StepsOf(ctx, n))
    case Pfmea => RiskFields(StepsOf(ctx, n), RisksOf(ctx, n))
    case _ => CharacteristicFields(StepsOf(ctx, n), CharacteristicsOf(ctx, n), ReferencesOf(ctx))
  }

  // ---------- Recording one mapping ----------

  ghost predicate Recorded(prov: ProvenanceList, feeds: seq<Feed>)
    reads prov
  {
    prov.Valid() && Groups(prov.entries, feeds)
  }

  lemma RecordedValid(prov: ProvenanceList, fed: seq<Feed>)
    requires Recorded(prov, fed)
    ensures prov.Valid()
  {}

  /** Appending a contribution that joins the earlier ones; the list never refuses it. */
  method AppendJoining(prov: ProvenanceList, ghost fed: seq<Feed>, f: Feed)
    requires Recorded(prov, fed) && Joins(fed, f)
    modifies prov
    ensures prov.Valid() && Recorded(prov, fed + [f])
  {
    JoinsIsAccepted(fed, f);
    AppendRegroups(prov.entries, fed, f);
    var accepted := prov.Append(DirectEntry(f));
    assert accepted;
  }

  /** One mapping of row `n`. */
  method RecordMapping(ctx: Context, prov: ProvenanceList, ghost before: seq<Feed>, ghost n: nat, ghost done: seq<Pair>,
                       ghost p: Pair, f: Feed)
    requires Sound(ctx) && n < |Rows(ctx)| && FromRows(ctx, before, n)
    requires OfRow(ctx, n, p) && CellValue(ctx.conv, Rows(ctx)[n], p.1).Some? && f == FeedAt(ctx, Rows(ctx)[n], p)
    requires forall k :: 0 <= k < |done| ==> done[k].0 != p.0
    requires Recorded(prov, before + FeedsOf(ctx, Rows(ctx)[n], done))
    modifies prov
    ensures Recorded(prov, before + FeedsOf(ctx, Rows(ctx)[n], done + [p]))
  {
    ghost var fed := before + FeedsOf(ctx, Rows(ctx)[n], done);
    FeedsOfStep(ctx, before, Rows(ctx)[n], done, p);
    hide FeedAt, FromRows, Sound, OfRow, CellValue, FeedsOf, Joins, Groups;
    RowFeedJoins(ctx, before, n, done, p);
    AppendJoining(prov, fed, f);
  }

  /** Before the first row nothing is recorded and nothing is wrong. */
  lemma StartOfRows(ctx: Context)
    ensures Groups([], RowFeeds(ctx, 0)) && MappablePrefix(ctx, 0) && StepsOf(ctx, 0) == []
  {}

  /** A prefix that cannot be mapped spoils the table. */
  lemma NotMappableAfter(ctx: Context, n: nat)
    requires n < |Rows(ctx)| && MappablePrefix(ctx, n)
    ensures Mappable(ctx) ==> MappablePrefix(ctx, n + 1)
    ensures ReadableBelow(ctx, n)
    ensures MappablePrefix(ctx, n + 1) ==> Readable(ctx, Rows(ctx)[n])
  {}

  /** The step list holds exactly the steps of the rows so far. */
  lemma {:induction false} StepsCollect(ctx: Context, n: nat)
    requires n <= |Rows(ctx)|
    ensures forall s :: s in StepsOf(ctx, n) <==> exists i :: 0 <= i < n && TextOf(ctx, Rows(ctx)[i], ProcessStepId) == s
  {
    if n > 0 {
      StepsCollect(ctx, n - 1);
    }
  }

  lemma StepOnlyReadable(ctx: Context, row: MappedRow)
    requires Sound(ctx) && ctx.spec.documentType.ProcessFlow? && HasText(ctx.conv, row, ProcessStepId)
    ensures Readable(ctx, row)
  {}

  /** A required column without text makes the row unreadable. */
  lemma NoText(ctx: Context, row: MappedRow, c: Canonical)
    requires Sound(ctx) && c in RequiredColumns(ctx.spec.documentType) + (if HasEffect(ctx) then {Effect} else {})
    requires CellValue(ctx.conv, row, c).None?
    ensures !Readable(ctx, row)
  {
    assert c in ColumnKeys(ctx.spec);
  }

  function StepPair(ctx: Context, n: nat): Pair
    requires n < |Rows(ctx)|
  {
    (StepRole(StepIndex(ctx, n)), ProcessStepId)
  }

  lemma StepLeads(ctx: Context, n: nat)
    requires n < |Rows(ctx)| && Sound(ctx)
    ensures |RowPairs(ctx, n)| > 0 && RowPairs(ctx, n)[0] == StepPair(ctx, n) && OfRow(ctx, n, StepPair(ctx, n))
    ensures RowFeeds(ctx, n) + FeedsOf(ctx, Rows(ctx)[n], []) == RowFeeds(ctx, n)
  {
    RowRoles(ctx, n);
  }

  /** The step slot of row `n`, the first mapping every builder records for a row. */
  method RecordStep(ctx: Context, prov: ProvenanceList, n: nat, index: nat, step: string)
    requires Sound(ctx) && n < |Rows(ctx)| && ReadableBelow(ctx, n) && HasText(ctx.conv, Rows(ctx)[n], ProcessStepId)
    requires index == StepIndex(ctx, n) && step == TextAt(ctx.conv, Rows(ctx)[n], ProcessStepId)
    requires Recorded(prov, RowFeeds(ctx, n))
    modifies prov
    ensures Recorded(prov, RowFeeds(ctx, n) + FeedsOf(ctx, Rows(ctx)[n], RowPairs(ctx, n)[..1]))
  {
    hide Groups, Recorded, PathOf, FromRows, StepIndex, BodyPairs, RowPairs, RowFeeds, WellFormed, SpecOk, Sound, ReadableBelow;
    ghost var p := StepPair(ctx, n);
    RowFeedsFromRows(ctx, n);
    RowRoles(ctx, n);
    StepLeads(ctx, n);
    assert [] + [p] == RowPairs(ctx, n)[..1];
    RecordMapping(ctx, prov, RowFeeds(ctx, n), n, [], p, Feed(PathOf(StepRole(index)), Str(step), SourceAt(ctx, Rows(ctx)[n], ProcessStepId)));
  }

  /** The mappings of row `n` to the leaves `RowPairs` lists from `from` on, with the values just read. */
  method RecordOwn(ctx: Context, prov: ProvenanceList, n: nat, from: nat, values: seq<(Canonical, Json)>)
    requires Sound(ctx) && n < |Rows(ctx)| && ReadableBelow(ctx, n)
    requires 0 < from <= from + |values| <= |RowPairs(ctx, n)|
    requires forall k :: 0 <= k < |values| ==>
      RowPairs(ctx, n)[from + k].1 == values[k].0 && CellValue(ctx.conv, Rows(ctx)[n], values[k].0) == Some(values[k].1)
    requires Recorded(prov, RowFeeds(ctx, n) + FeedsOf(ctx, Rows(ctx)[n], RowPairs(ctx, n)[..from]))
    modifies prov
    ensures Recorded(prov, RowFeeds(ctx, n) + FeedsOf(ctx, Rows(ctx)[n], RowPairs(ctx, n)[..from + |values|]))
  {
    hide PathOf, FromRows, Groups, RowFeeds, FeedsOf, Sound, ReadableBelow, RowPairs, CellValue;
    ghost var pairs := RowPairs(ctx, n);
    RowRoles(ctx, n);
    RowFeedsFromRows(ctx, n);
    var k := 0;
    while k < |values|
      invariant 0 <= k <= |values|
      invariant Recorded(prov, RowFeeds(ctx, n) + FeedsOf(ctx, Rows(ctx)[n], pairs[..from + k]))
    {
      var c := values[k].0;
      ghost var p := pairs[from + k];
      assert OwnPair(n, p);
      var target := PathOf(if ctx.spec.documentType.Pfmea? then RiskRole(n, c) else CharRole(n, c));
      OwnTarget(ctx, n, from + k);
      RecordMapping(ctx, prov, RowFeeds(ctx, n), n, pairs[..from + k], p, Feed(target, values[k].1, SourceAt(ctx, Rows(ctx)[n], c)));
      assert pairs[..from + k] + [p] == pairs[..from + (k + 1)];
      k := k + 1;
    }
  }

  lemma OwnTarget(ctx: Context, n: nat, k: nat)
    requires n < |Rows(ctx)| && 0 < k < |RowPairs(ctx, n)|
    ensures RowPairs(ctx, n)[k].0 ==
      if ctx.spec.documentType.Pfmea? then RiskRole(n, RowPairs(ctx, n)[k].1) else CharRole(n, RowPairs(ctx, n)[k].1)
  {}

  // ---------- Process flow ----------

  /** In a process flow whose steps differ so far, row `n` fills slot `n`. */
  lemma ProcessFlowSlot(ctx: Context, n: nat)
    requires ctx.spec.documentType.ProcessFlow? && n < |Rows(ctx)| && MappablePrefix(ctx, n)
    requires TextOf(ctx, Rows(ctx)[n], ProcessStepId) !in StepsOf(ctx, n)
    ensures StepIndex(ctx, n) == n == |StepsOf(ctx, n)|
    ensures RowPairs(ctx, n) == [StepPair(ctx, n)]
    ensures StepsOf(ctx, n + 1) == StepsOf(ctx, n) + [TextOf(ctx, Rows(ctx)[n], ProcessStepId)]
  {
    forall i, j | 0 <= i < j < n
      ensures TextOf(ctx, Rows(ctx)[i], ProcessStepId) != TextOf(ctx, Rows(ctx)[j], ProcessStepId)
    {
      assert RowsApart(ctx, i, j);
    }
    DistinctStepsInOrder(ctx, n);
    SlotHoldsStep(ctx, n, n + 1);
  }

  lemma ProcessFlowExtends(ctx: Context, n: nat)
    requires ctx.spec.documentType.ProcessFlow? && n < |Rows(ctx)| && MappablePrefix(ctx, n)
    ensures MappablePrefix(ctx, n + 1) <==>
      Readable(ctx, Rows(ctx)[n]) && TextOf(ctx, Rows(ctx)[n], ProcessStepId) !in StepsOf(ctx, n)
  {
    StepsCollect(ctx, n);
    if MappablePrefix(ctx, n + 1) {
      forall i | 0 <= i < n ensures TextOf(ctx, Rows(ctx)[i], ProcessStepId) != TextOf(ctx, Rows(ctx)[n], ProcessStepId) {
        assert RowsApart(ctx, i, n);
      }
    }
  }

  method BuildProcessFlow(ctx: Context, prov: ProvenanceList) returns (r: Option<Fields>)
    requires Sound(ctx) && ctx.spec.documentType.ProcessFlow?
    requires prov.Valid() && prov.entries == []
    modifies prov
    ensures prov.Valid()
    ensures r.Some? <==> Mappable(ctx)
    ensures r.Some? ==> Recorded(prov, RowFeeds(ctx, |Rows(ctx)|)) && r.value == FieldsOf(ctx)
  {
    hide Groups, WellFormed, SpecOk, FeedsOf, PathOf, FromRows, BodyPairs, StepsOf, StepIndex, MappablePrefix, RowPairs, ReadableBelow;
    StartOfRows(ctx);
    var steps: seq<string> := [];
    var seen: set<string> := {};
    var n := 0;
    while n < |Rows(ctx)|
      invariant 0 <= n <= |Rows(ctx)|
      invariant MappablePrefix(ctx, n)
      invariant steps == StepsOf(ctx, n) && seen == set s | s in steps
      invariant Recorded(prov, RowFeeds(ctx, n))
    {
      var row := Rows(ctx)[n];
      ProcessFlowExtends(ctx, n);
      NotMappableAfter(ctx, n);
      if !HasText(ctx.conv, row, ProcessStepId) {
        NoText(ctx, row, ProcessStepId);
        return None;
      }
      var step := TextAt(ctx.conv, row, ProcessStepId);
      if step in seen {
        return None;
      }
      seen := seen + {step};
      var index := |steps|;
      ProcessFlowSlot(ctx, n);
      steps := steps + [step];
      RecordStep(ctx, prov, n, index, step);
      RowComplete(ctx, n);
      StepOnlyReadable(ctx, row);
      n := n + 1;
    }
    return Some(StepFields(steps));
  }

  // ---------- PFMEA ----------

  lemma PfmeaPairs(ctx: Context, n: nat)
    requires ctx.spec.documentType.Pfmea? && n < |Rows(ctx)|
    ensures RowPairs(ctx, n) ==
      [StepPair(ctx, n), (RiskRole(n, FailureModeId), FailureModeId), (RiskRole(n, ProcessStepId), ProcessStepId),
       (RiskRole(n, CharacteristicId), CharacteristicId), (RiskRole(n, SpecialCharacteristic), SpecialCharacteristic)]
      + (if HasEffect(ctx) then [(RiskRole(n, Effect), Effect)] else [])
  {}

  /** The mappings of one risk row after its step; fails only on a missing effect. */
  method RecordRisk(ctx: Context, prov: ProvenanceList, n: nat, failureId: string, step: string, characteristicId: string, special: Json)
    returns (effect: Option<Option<string>>)
    requires Sound(ctx) && ctx.spec.documentType.Pfmea? && n < |Rows(ctx)| && ReadableBelow(ctx, n)
    requires CellValue(ctx.conv, Rows(ctx)[n], FailureModeId) == Some(Str(failureId))
    requires CellValue(ctx.conv, Rows(ctx)[n], ProcessStepId) == Some(Str(step))
    requires CellValue(ctx.conv, Rows(ctx)[n], CharacteristicId) == Some(Str(characteristicId))
    requires CellValue(ctx.conv, Rows(ctx)[n], SpecialCharacteristic) == Some(special)
    requires Recorded(prov, RowFeeds(ctx, n) + FeedsOf(ctx, Rows(ctx)[n], RowPairs(ctx, n)[..1]))
    modifies prov
    ensures prov.Valid()
    ensures effect.Some? <==> Readable(ctx, Rows(ctx)[n])
    ensures effect.Some? ==> Recorded(prov, RowFeeds(ctx, n + 1))
    ensures effect.Some? ==> effect.value == if HasEffect(ctx) then Some(TextOf(ctx, Rows(ctx)[n], Effect)) else None
  {
    hide PathOf, FromRows, Groups, RowFeeds, FeedsOf, Sound, ReadableBelow, RowPairs, CellValue, Readable;
    var row := Rows(ctx)[n];
    PfmeaPairs(ctx, n);
    RiskReadable(ctx, row);
    RecordOwn(ctx, prov, n, 1, [(FailureModeId, Str(failureId)), (ProcessStepId, Str(step)),
                                (CharacteristicId, Str(characteristicId)), (SpecialCharacteristic, special)]);
    effect := Some(None);
    if HasEffect(ctx) {
      if !HasText(ctx.conv, row, Effect) {
        return None;
      }
      effect := Some(Some(TextAt(ctx.conv, row, Effect)));
      EffectValue(ctx, row);
      RecordOwn(ctx, prov, n, 5, [(Effect, Str(TextAt(ctx.conv, row, Effect)))]);
    }
    RowComplete(ctx, n);
  }

  lemma EffectValue(ctx: Context, row: MappedRow)
    requires HasText(ctx.conv, row, Effect)
    ensures CellValue(ctx.conv, row, Effect) == Some(Str(TextAt(ctx.conv, row, Effect)))
  {}

  lemma RowComplete(ctx: Context, n: nat)
    requires n < |Rows(ctx)|
    ensures RowFeeds(ctx, n) + FeedsOf(ctx, Rows(ctx)[n], RowPairs(ctx, n)[..|RowPairs(ctx, n)|]) == RowFeeds(ctx, n + 1)
  {
    assert RowPairs(ctx, n)[..|RowPairs(ctx, n)|] == RowPairs(ctx, n);
  }

  lemma RiskReadable(ctx: Context, row: MappedRow)
    requires Sound(ctx) && ctx.spec.documentType.Pfmea?
    requires CellValue(ctx.conv, row, FailureModeId).Some? && CellValue(ctx.conv, row, ProcessStepId).Some?
    requires CellValue(ctx.conv, row, CharacteristicId).Some? && CellValue(ctx.conv, row, SpecialCharacteristic).Some?
    ensures Readable(ctx, row) <==> (HasEffect(ctx) ==> HasText(ctx.conv, row, Effect))
  {}

  lemma PfmeaExtends(ctx: Context, n: nat)
    requires ctx.spec.documentType.Pfmea? && n < |Rows(ctx)| && MappablePrefix(ctx, n)
    ensures MappablePrefix(ctx, n + 1) <==>
      && Readable(ctx, Rows(ctx)[n])
      && forall i :: 0 <= i < n ==> TextOf(ctx, Rows(ctx)[i], FailureModeId) != TextOf(ctx, Rows(ctx)[n], FailureModeId)
  {
    if MappablePrefix(ctx, n + 1) {
      forall i | 0 <= i < n ensures TextOf(ctx, Rows(ctx)[i], FailureModeId) != TextOf(ctx, Rows(ctx)[n], FailureModeId) {
        assert RowsApart(ctx, i, n);
      }
    }
  }

  /** The texts one column has taken so far. */
  ghost function TextsOf(ctx: Context, n: nat, c: Canonical): set<string>
    requires n <= |Rows(ctx)|
  {
    set i | 0 <= i < n :: TextOf(ctx, Rows(ctx)[i], c)
  }

  /** `step_indexes.setdefault(step, len(steps))` and the append that follows it. */
  method TakeStep(ctx: Context, n: nat, steps: seq<string>, indexes: map<string, nat>)
    returns (index: nat, steps': seq<string>, indexes': map<string, nat>)
    requires n < |Rows(ctx)| && ProcessStepId in Rows(ctx)[n].cells
    requires steps == StepsOf(ctx, n) && Indexed(steps, indexes)
    ensures index == StepIndex(ctx, n) && steps' == StepsOf(ctx, n + 1) && Indexed(steps', indexes')
  {
    var step := TextAt(ctx.conv, Rows(ctx)[n], ProcessStepId);
    StepsDistinct(ctx, n);
    StepsDistinct(ctx, n + 1);
    SlotHoldsStep(ctx, n, n + 1);
    steps', indexes' := steps, indexes;
    if step !in indexes {
      indexes' := indexes[step := |steps|];
      steps' := steps + [step];
    }
    index := indexes'[step];
  }

  ghost predicate Indexed(steps: seq<string>, indexes: map<string, nat>) {
    && (forall s :: s in indexes ==> indexes[s] < |steps| && steps[indexes[s]] == s)
    && (forall k :: 0 <= k < |steps| ==> steps[k] in indexes)
  }

  /** The rest of a risk row once its failure mode is known to be new. */
  method BuildRisk(ctx: Context, prov: ProvenanceList, n: nat, failureId: string, step: string) returns (r: Option<Risk>)
    requires Sound(ctx) && ctx.spec.documentType.Pfmea? && n < |Rows(ctx)| && ReadableBelow(ctx, n)
    requires HasText(ctx.conv, Rows(ctx)[n], FailureModeId) && failureId == TextAt(ctx.conv, Rows(ctx)[n], FailureModeId)
    requires HasText(ctx.conv, Rows(ctx)[n], ProcessStepId) && step == TextAt(ctx.conv, Rows(ctx)[n], ProcessStepId)
    requires Recorded(prov, RowFeeds(ctx, n) + FeedsOf(ctx, Rows(ctx)[n], RowPairs(ctx, n)[..1]))
    modifies prov
    ensures prov.Valid()
    ensures r.Some? <==> Readable(ctx, Rows(ctx)[n])
    ensures r.Some? ==> Recorded(prov, RowFeeds(ctx, n + 1)) && r.value == RiskOf(ctx, Rows(ctx)[n])
  {
    hide Groups, WellFormed, SpecOk, FeedsOf, PathOf, FromRows, RowPairs, ReadableBelow, RowFeeds, Sound, Readable;
    var row := Rows(ctx)[n];
    if !HasText(ctx.conv, row, CharacteristicId) { NoText(ctx, row, CharacteristicId); return None; }
    var characteristicId := TextAt(ctx.conv, row, CharacteristicId);
    if !HasText(ctx.conv, row, SpecialCharacteristic) { NoText(ctx, row, SpecialCharacteristic); return None; }
    var special := ParseBoolean(ctx.conv, row.cells[SpecialCharacteristic].text);
    if special.None? { NoText(ctx, row, SpecialCharacteristic); return None; }
    var effect := RecordRisk(ctx, prov, n, failureId, step, characteristicId, special.value);
    if effect.None? { return None; }
    return Some(Risk(failureId, step, characteristicId, special.value == Bool(true), row.cells[FailureModeId].locator, effect.value));
  }

  method BuildPfmea(ctx: Context, prov: ProvenanceList) returns (r: Option<Fields>)
    requires Sound(ctx) && ctx.spec.documentType.Pfmea?
    requires prov.Valid() && prov.entries == []
    modifies prov
    ensures prov.Valid()
    ensures r.Some? <==> Mappable(ctx)
    ensures r.Some? ==> Recorded(prov, RowFeeds(ctx, |Rows(ctx)|)) && r.value == FieldsOf(ctx)
  {
    hide Groups, WellFormed, SpecOk, FeedsOf, PathOf, FromRows, BodyPairs, StepsOf, StepIndex, MappablePrefix, RowPairs, ReadableBelow, RowFeeds,
      Sound, Readable, RiskOf;
    StartOfRows(ctx);
    var steps: seq<string> := [];
    var indexes: map<string, nat> := map[];
    var risks: seq<Risk> := [];
    var failureModes: set<string> := {};
    var n := 0;
    while n < |Rows(ctx)|
      invariant 0 <= n <= |Rows(ctx)|
      invariant MappablePrefix(ctx, n)
      invariant steps == StepsOf(ctx, n) && Indexed(steps, indexes)
      invariant failureModes == TextsOf(ctx, n, FailureModeId)
      invariant |risks| == n && forall i :: 0 <= i < n ==> risks[i] == RiskOf(ctx, Rows(ctx)[i])
      invariant Recorded(prov, RowFeeds(ctx, n))
    {
      var row := Rows(ctx)[n];
      PfmeaExtends(ctx, n);
      NotMappableAfter(ctx, n);
      if !HasText(ctx.conv, row, ProcessStepId) { NoText(ctx, row, ProcessStepId); return None; }
      var step := TextAt(ctx.conv, row, ProcessStepId);
      var index;
      index, steps, indexes := TakeStep(ctx, n, steps, indexes);
      RecordStep(ctx, prov, n, index, step);
      if !HasText(ctx.conv, row, FailureModeId) { NoText(ctx, row, FailureModeId); return None; }
      var failureId := TextAt(ctx.conv, row, FailureModeId);
      if failureId in failureModes { return None; }
      failureModes := failureModes + {failureId};
      var risk := BuildRisk(ctx, prov, n, failureId, step);
      if risk.None? { return None; }
      risks := risks + [risk.value];
      n := n + 1;
    }
    return Some(RiskFields(steps, risks));
  }

  // ---------- Control plan, SOP and inspection record rows ----------

  function WithControls(ctx: Context): bool {
    ctx.spec.documentType.ControlPlan?
  }

  /** After the step slot come the characteristic columns. */
  lemma CharacteristicRow(ctx: Context, n: nat)
    requires HasCharacteristics(ctx.spec.documentType) && n < |Rows(ctx)|
    ensures var columns := CharacteristicColumns(WithControls(ctx));
      |RowPairs(ctx, n)| == 1 + |columns| && forall k :: 0 <= k < |columns| ==> RowPairs(ctx, n)[1 + k].1 == columns[k]
  {
    hide CharacteristicColumns, StepIndex;
    var columns := CharacteristicColumns(WithControls(ctx));
    assert BodyPairs(ctx, n) == CharacteristicPairs(WithControls(ctx), n);
    assert RowPairs(ctx, n) == [StepPair(ctx, n)] + CharacteristicPairs(WithControls(ctx), n);
  }

  /** The same, column by column; the positions of the limits follow the control identifier. */
  lemma CharacteristicPositions(ctx: Context, n: nat)
    requires HasCharacteristics(ctx.spec.documentType) && n < |Rows(ctx)|
    ensures var pairs, base := RowPairs(ctx, n), (if WithControls(ctx) then 4 else 3);
      && |pairs| == (if WithControls(ctx) then 11 else 7)
      && pairs[1].1 == CharacteristicId && pairs[2].1 == ProcessStepId && (WithControls(ctx) ==> pairs[3].1 == ControlId)
      && pairs[base].1 == Target && pairs[base + 1].1 == Minimum && pairs[base + 2].1 == Maximum && pairs[base + 3].1 == Unit
      && (WithControls(ctx) ==> pairs[8].1 == ControlMethod && pairs[9].1 == Frequency && pairs[10].1 == ReactionPlan)
  {
    CharacteristicRow(ctx, n);
    hide RowPairs, CharacteristicColumns;
    PositionsFrom(RowPairs(ctx, n), WithControls(ctx));
  }

  lemma PositionsFrom(pairs: seq<Pair>, controls: bool)
    requires |pairs| == 1 + |CharacteristicColumns(controls)|
    requires forall k :: 0 <= k < |CharacteristicColumns(controls)| ==> pairs[1 + k].1 == CharacteristicColumns(controls)[k]
    ensures var base := if controls then 4 else 3;
      && |pairs| == (if controls then 11 else 7)
      && pairs[1].1 == CharacteristicId && pairs[2].1 == ProcessStepId && (controls ==> pairs[3].1 == ControlId)
      && pairs[base].1 == Target && pairs[base + 1].1 == Minimum && pairs[base + 2].1 == Maximum && pairs[base + 3].1 == Unit
      && (controls ==> pairs[8].1 == ControlMethod && pairs[9].1 == Frequency && pairs[10].1 == ReactionPlan)
  {
    var columns := CharacteristicColumns(controls);
    if controls {
      assert columns == [CharacteristicId, ProcessStepId, ControlId, Target, Minimum, Maximum, Unit, ControlMethod, Frequency, ReactionPlan];
      assert pairs[1 + 0].1 == columns[0] && pairs[1 + 1].1 == columns[1] && pairs[1 + 2].1 == columns[2];
      assert pairs[1 + 3].1 == columns[3] && pairs[1 + 4].1 == columns[4] && pairs[1 + 5].1 == columns[5];
      assert pairs[1 + 6].1 == columns[6] && pairs[1 + 7].1 == columns[7] && pairs[1 + 8].1 == columns[8] && pairs[1 + 9].1 == columns[9];
    } else {
      assert columns == [CharacteristicId, ProcessStepId, Target, Minimum, Maximum, Unit];
      assert pairs[1 + 0].1 == columns[0] && pairs[1 + 1].1 == columns[1] && pairs[1 + 2].1 == columns[2];
      assert pairs[1 + 3].1 == columns[3] && pairs[1 + 4].1 == columns[4] && pairs[1 + 5].1 == columns[5];
    }
  }

  lemma ColumnsAreRequired(ctx: Context)
    requires Sound(ctx) && !ctx.spec.documentType.Pfmea?
    ensures ColumnKeys(ctx.spec) == RequiredColumns(ctx.spec.documentType)
  {}

  ghost predicate Read(ctx: Context, row: MappedRow, c: Canonical) {
    CellValue(ctx.conv, row, c).Some?
  }

  ghost predicate LimitsRead(ctx: Context, row: MappedRow) {
    Read(ctx, row, Target) && Read(ctx, row, Minimum) && Read(ctx, row, Maximum) && Read(ctx, row, Unit)
  }

  ghost predicate ControlsRead(ctx: Context, row: MappedRow) {
    Read(ctx, row, ControlMethod) && Read(ctx, row, Frequency) && Read(ctx, row, ReactionPlan)
  }

  lemma ColumnsRead(ctx: Context, row: MappedRow, columns: set<Canonical>)
    requires HasCharacteristics(ctx.spec.documentType) && columns == RequiredColumns(ctx.spec.documentType)
    ensures (forall c :: c in columns && !IsRefColumn(c) ==> Read(ctx, row, c)) <==>
      && Read(ctx, row, CharacteristicId) && Read(ctx, row, ProcessStepId) && LimitsRead(ctx, row)
      && (WithControls(ctx) ==> Read(ctx, row, ControlId) && ControlsRead(ctx, row))
  {
    hide Read;
  }

  lemma CharacteristicReadable(ctx: Context, row: MappedRow)
    requires Sound(ctx) && HasCharacteristics(ctx.spec.documentType)
    ensures BodyReadable(ctx, row) <==>
      && Read(ctx, row, CharacteristicId) && Read(ctx, row, ProcessStepId) && LimitsRead(ctx, row)
      && (WithControls(ctx) ==> Read(ctx, row, ControlId) && ControlsRead(ctx, row))
  {
    ColumnsAreRequired(ctx);
    ColumnsRead(ctx, row, ColumnKeys(ctx.spec));
    hide RequiredColumns, Sound, CellValue, ColumnKeys, LimitsRead, ControlsRead;
    assert BodyReadable(ctx, row) <==> forall c :: c in ColumnKeys(ctx.spec) && !IsRefColumn(c) ==> Read(ctx, row, c);
  }

  /** `_required_text`. */
  method RequiredText(ctx: Context, row: MappedRow, c: Canonical) returns (r: Option<string>)
    requires !c.SpecialCharacteristic? && !c.Target? && !c.Minimum? && !c.Maximum?
    ensures r.Some? <==> CellValue(ctx.conv, row, c).Some?
    ensures r.Some? ==> CellValue(ctx.conv, row, c) == Some(Str(r.value)) && r.value == TextOf(ctx, row, c)
    ensures r.Some? ==> HasText(ctx.conv, row, c) && r.value == TextAt(ctx.conv, row, c)
  {
    r := if HasText(ctx.conv, row, c) then Some(TextAt(ctx.conv, row, c)) else None;
  }

  /** `_required_cell` followed by `_parse_number`. */
  method RequiredNumber(ctx: Context, row: MappedRow, c: Canonical) returns (r: Option<Json>)
    requires c.Target? || c.Minimum? || c.Maximum?
    ensures r == CellValue(ctx.conv, row, c)
    ensures r.Some? ==> r.value == ValueOf(ctx, row, c)
  {
    r := if HasText(ctx.conv, row, c) then ParseNumber(ctx.conv, row.cells[c].text) else None;
  }

  /** The row's identifiers: step, characteristic and, where the document has them, control. */
  method BuildIdentity(ctx: Context, prov: ProvenanceList, n: nat) returns (r: Option<(string, string, string)>)
    requires Sound(ctx) && HasCharacteristics(ctx.spec.documentType) && n < |Rows(ctx)| && ReadableBelow(ctx, n)
    requires |RowPairs(ctx, n)| >= 4 && Recorded(prov, RowFeeds(ctx, n) + FeedsOf(ctx, Rows(ctx)[n], RowPairs(ctx, n)[..1]))
    modifies prov
    ensures prov.Valid()
    ensures var row := Rows(ctx)[n];
      r.Some? <==> Read(ctx, row, CharacteristicId) && Read(ctx, row, ProcessStepId) && (WithControls(ctx) ==> Read(ctx, row, ControlId))
    ensures r.Some? ==> r.value == (TextOf(ctx, Rows(ctx)[n], ProcessStepId), TextOf(ctx, Rows(ctx)[n], CharacteristicId),
                                    if WithControls(ctx) then TextOf(ctx, Rows(ctx)[n], ControlId) else "")
    ensures r.Some? ==>
      Recorded(prov, RowFeeds(ctx, n) + FeedsOf(ctx, Rows(ctx)[n], RowPairs(ctx, n)[..if WithControls(ctx) then 4 else 3]))
  {
    hide Groups, FromRows, RowFeeds, FeedsOf, Sound, ReadableBelow, RowPairs, CellValue, TextOf;
    var row := Rows(ctx)[n];
    CharacteristicPositions(ctx, n);
    var characteristicId := RequiredText(ctx, row, CharacteristicId);
    if characteristicId.None? { return None; }
    var step := RequiredText(ctx, row, ProcessStepId);
    if step.None? { return None; }
    RecordOwn(ctx, prov, n, 1, [(CharacteristicId, Str(characteristicId.value)), (ProcessStepId, Str(step.value))]);
    var controlId := Some("");
    if WithControls(ctx) {
      controlId := RequiredText(ctx, row, ControlId);
      if controlId.None? { return None; }
      RecordOwn(ctx, prov, n, 3, [(ControlId, Str(controlId.value))]);
    }
    return Some((step.value, characteristicId.value, controlId.value));
  }

  /** `_build_characteristic`: succeeds exactly on a row readable apart from references. */
  method BuildCharacteristic(ctx: Context, prov: ProvenanceList, n: nat) returns (r: Option<Characteristic>)
    requires Sound(ctx) && HasCharacteristics(ctx.spec.documentType) && n < |Rows(ctx)| && ReadableBelow(ctx, n)
    requires Recorded(prov, RowFeeds(ctx, n) + FeedsOf(ctx, Rows(ctx)[n], RowPairs(ctx, n)[..1]))
    modifies prov
    ensures prov.Valid()
    ensures r.Some? <==> BodyReadable(ctx, Rows(ctx)[n])
    ensures r.Some? ==> Recorded(prov, RowFeeds(ctx, n + 1)) && r.value == CharacteristicOf(ctx, Rows(ctx)[n])
  {
    hide Groups, FromRows, RowFeeds, FeedsOf, Sound, ReadableBelow, RowPairs, CellValue, BodyReadable, TextOf, ValueOf, LimitsRead, ControlsRead, Read;
    var row := Rows(ctx)[n];
    CharacteristicPositions(ctx, n);
    CharacteristicReadable(ctx, row);
    var identity := BuildIdentity(ctx, prov, n);
    if identity.None? { return None; }
    var (step, characteristicId, controlId) := identity.value;
    var locator := CellAt(row, CharacteristicId).locator;
    var base := if WithControls(ctx) then 4 else 3;
    var limits := RecordSpecification(ctx, prov, n, base);
    if limits.None? { return None; }
    var controls: Option<Controls> := None;
    if WithControls(ctx) {
      controls := RecordControls(ctx, prov, n, controlId);
      if controls.None? { return None; }
    }
    RowComplete(ctx, n);
    var (target, minimum, maximum, unit) := limits.value;
    return Some(Characteristic(step, characteristicId, target, minimum, maximum, unit, locator, controls));
  }

  method RecordSpecification(ctx: Context, prov: ProvenanceList, n: nat, base: nat)
    returns (r: Option<(Json, Json, Json, string)>)
    requires Sound(ctx) && HasCharacteristics(ctx.spec.documentType) && n < |Rows(ctx)| && ReadableBelow(ctx, n)
    requires base == (if WithControls(ctx) then 4 else 3) && base + 4 <= |RowPairs(ctx, n)|
    requires Recorded(prov, RowFeeds(ctx, n) + FeedsOf(ctx, Rows(ctx)[n], RowPairs(ctx, n)[..base]))
    modifies prov
    ensures prov.Valid()
    ensures r.Some? <==> LimitsRead(ctx, Rows(ctx)[n])
    ensures r.Some? ==> Recorded(prov, RowFeeds(ctx, n) + FeedsOf(ctx, Rows(ctx)[n], RowPairs(ctx, n)[..base + 4]))
    ensures r.Some? ==> r.value == (ValueOf(ctx, Rows(ctx)[n], Target), ValueOf(ctx, Rows(ctx)[n], Minimum),
                                    ValueOf(ctx, Rows(ctx)[n], Maximum), TextOf(ctx, Rows(ctx)[n], Unit))
  {
    hide Groups, FromRows, RowFeeds, FeedsOf, Sound, ReadableBelow, RowPairs, CellValue, TextOf, ValueOf;
    var row := Rows(ctx)[n];
    CharacteristicPositions(ctx, n);
    var target := RequiredNumber(ctx, row, Target);
    if target.None? { return None; }
    var minimum := RequiredNumber(ctx, row, Minimum);
    if minimum.None? { return None; }
    var maximum := RequiredNumber(ctx, row, Maximum);
    if maximum.None? { return None; }
    RecordOwn(ctx, prov, n, base, [(Target, target.value), (Minimum, minimum.value), (Maximum, maximum.value)]);
    var unit := RequiredText(ctx, row, Unit);
    if unit.None? { return None; }
    RecordOwn(ctx, prov, n, base + 3, [(Unit, Str(unit.value))]);
    return Some((target.value, minimum.value, maximum.value, unit.value));
  }

  method RecordControls(ctx: Context, prov: ProvenanceList, n: nat, controlId: string) returns (r: Option<Controls>)
    requires Sound(ctx) && WithControls(ctx) && n < |Rows(ctx)| && ReadableBelow(ctx, n)
    requires 8 < |RowPairs(ctx, n)| && Recorded(prov, RowFeeds(ctx, n) + FeedsOf(ctx, Rows(ctx)[n], RowPairs(ctx, n)[..8]))
    modifies prov
    ensures prov.Valid()
    ensures r.Some? <==> ControlsRead(ctx, Rows(ctx)[n])
    ensures r.Some? ==>
      && |RowPairs(ctx, n)| == 11
      && Recorded(prov, RowFeeds(ctx, n) + FeedsOf(ctx, Rows(ctx)[n], RowPairs(ctx, n)[..11]))
    ensures r.Some? ==> r.value == Controls(controlId, TextOf(ctx, Rows(ctx)[n], ControlMethod),
                                            TextOf(ctx, Rows(ctx)[n], Frequency), TextOf(ctx, Rows(ctx)[n], ReactionPlan))
  {
    hide Groups, FromRows, RowFeeds, FeedsOf, Sound, ReadableBelow, RowPairs, CellValue, TextOf;
    var row := Rows(ctx)[n];
    CharacteristicPositions(ctx, n);
    var controlMethod := RequiredText(ctx, row, ControlMethod);
    if controlMethod.None? { return None; }
    var frequency := RequiredText(ctx, row, Frequency);
    if frequency.None? { return None; }
    var reactionPlan := RequiredText(ctx, row, ReactionPlan);
    if reactionPlan.None? { return None; }
    RecordOwn(ctx, prov, n, 8, [(ControlMethod, Str(controlMethod.value)), (Frequency, Str(frequency.value)), (ReactionPlan, Str(reactionPlan.value))]);
    return Some(Controls(controlId, controlMethod.value, frequency.value, reactionPlan.value));
  }

  // ---------- Control plan and characteristic documents ----------

  ghost function RelationsOf(ctx: Context, n: nat): set<(string, string)>
    requires n <= |Rows(ctx)|
  {
    set i | 0 <= i < n :: RelationOf(ctx, Rows(ctx)[i])
  }

  lemma CharacteristicExtends(ctx: Context, n: nat)
    requires HasCharacteristics(ctx.spec.documentType) && n < |Rows(ctx)| && BodyPrefix(ctx, n)
    ensures ReadableBelow(ctx, n)
    ensures BodyPrefix(ctx, n + 1) <==>
      && BodyReadable(ctx, Rows(ctx)[n])
      && RelationOf(ctx, Rows(ctx)[n]) !in RelationsOf(ctx, n)
      && (WithControls(ctx) ==> TextOf(ctx, Rows(ctx)[n], ControlId) !in TextsOf(ctx, n, ControlId))
    ensures BodyPrefix(ctx, |Rows(ctx)|) ==> BodyPrefix(ctx, n + 1)
  {
    if BodyPrefix(ctx, n + 1) {
      forall i | 0 <= i < n
        ensures RelationOf(ctx, Rows(ctx)[i]) != RelationOf(ctx, Rows(ctx)[n])
        ensures WithControls(ctx) ==> TextOf(ctx, Rows(ctx)[i], ControlId) != TextOf(ctx, Rows(ctx)[n], ControlId)
      {
        assert RowsApart(ctx, i, n);
      }
    }
  }

  /** The row loop of `_build_control_plan` and `_build_characteristic_document`. */
  method BuildCharacteristics(ctx: Context, prov: ProvenanceList)
    returns (r: Option<(seq<string>, seq<Characteristic>)>)
    requires Sound(ctx) && HasCharacteristics(ctx.spec.documentType)
    requires prov.Valid() && prov.entries == []
    modifies prov
    ensures prov.Valid()
    ensures r.Some? <==> BodyPrefix(ctx, |Rows(ctx)|)
    ensures r.Some? ==> Recorded(prov, RowFeeds(ctx, |Rows(ctx)|))
    ensures r.Some? ==> r.value == (StepsOf(ctx, |Rows(ctx)|), CharacteristicsOf(ctx, |Rows(ctx)|))
  {
    hide Groups, Sound, FeedsOf, FromRows, BodyPairs, StepsOf, StepIndex, BodyPrefix, RowPairs, ReadableBelow, RowFeeds, BodyReadable, CharacteristicOf, TextOf, RelationOf, RelationsOf, TextsOf, LimitsRead, ControlsRead, CellValue;
    StartOfRows(ctx);
    StartOfBody(ctx);
    assert RelationsOf(ctx, 0) == {} && TextsOf(ctx, 0, ControlId) == {} by {
      SetsStart(ctx);
    }
    var steps: seq<string> := [];
    var indexes: map<string, nat> := map[];
    var characteristics: seq<Characteristic> := [];
    var relations: set<(string, string)> := {};
    var controlIds: set<string> := {};
    var n := 0;
    while n < |Rows(ctx)|
      invariant 0 <= n <= |Rows(ctx)|
      invariant BodyPrefix(ctx, n)
      invariant steps == StepsOf(ctx, n) && Indexed(steps, indexes)
      invariant relations == RelationsOf(ctx, n)
      invariant WithControls(ctx) ==> controlIds == TextsOf(ctx, n, ControlId)
      invariant |characteristics| == n && forall i :: 0 <= i < n ==> characteristics[i] == CharacteristicOf(ctx, Rows(ctx)[i])
      invariant Recorded(prov, RowFeeds(ctx, n))
    {
      var row := Rows(ctx)[n];
      CharacteristicExtends(ctx, n);
      CharacteristicReadable(ctx, row);
      SetsGrow(ctx, n);
      var step := RequiredText(ctx, row, ProcessStepId);
      if step.None? { return None; }
      var index;
      index, steps, indexes := TakeStep(ctx, n, steps, indexes);
      RecordStep(ctx, prov, n, index, step.value);
      var characteristic := BuildCharacteristic(ctx, prov, n);
      if characteristic.None? { return None; }
      KeysOfBuilt(ctx, row);
      var relation := (ctx.conv.norm(characteristic.value.processStepId), ctx.conv.norm(characteristic.value.characteristicId));
      if relation in relations { return None; }
      if WithControls(ctx) {
        var controlId := characteristic.value.controls.value.controlId;
        if controlId in controlIds { return None; }
        controlIds := controlIds + {controlId};
      }
      relations := relations + {relation};
      characteristics := characteristics + [characteristic.value];
      n := n + 1;
    }
    assert characteristics == CharacteristicsOf(ctx, |Rows(ctx)|);
    return Some((steps, characteristics));
  }

  lemma SetsStart(ctx: Context)
    ensures RelationsOf(ctx, 0) == {} && TextsOf(ctx, 0, ControlId) == {}
  {}

  lemma SetsGrow(ctx: Context, n: nat)
    requires n < |Rows(ctx)|
    ensures RelationsOf(ctx, n + 1) == RelationsOf(ctx, n) + {RelationOf(ctx, Rows(ctx)[n])}
    ensures TextsOf(ctx, n + 1, ControlId) == TextsOf(ctx, n, ControlId) + {TextOf(ctx, Rows(ctx)[n], ControlId)}
  {}

  lemma StartOfBody(ctx: Context)
    ensures BodyPrefix(ctx, 0)
  {}

  lemma KeysOfBuilt(ctx: Context, row: MappedRow)
    ensures var c := CharacteristicOf(ctx, row);
      && (ctx.conv.norm(c.processStepId), ctx.conv.norm(c.characteristicId)) == RelationOf(ctx, row)
      && (c.controls.Some? <==> WithControls(ctx))
      && (WithControls(ctx) ==> c.controls.value.controlId == TextOf(ctx, row, ControlId))
  {}

  /** Without reference columns, the body is everything. */
  lemma NoRefColumns(ctx: Context)
    requires Sound(ctx) && !ctx.spec.documentType.InspectionRecord?
    ensures forall c :: c in ColumnKeys(ctx.spec) ==> !IsRefColumn(c)
  {
    NoRefAllowed(ctx.spec.documentType);
    var allowed := RequiredColumns(ctx.spec.documentType) + OptionalColumns(ctx.spec.documentType);
    hide RequiredColumns, OptionalColumns, WellFormed, ColumnKeys, IsRefColumn;
    assert ColumnKeys(ctx.spec) <= allowed;
  }

  lemma NoRefAllowed(t: DocumentType)
    requires !t.InspectionRecord?
    ensures forall c :: c in RequiredColumns(t) + OptionalColumns(t) ==> !IsRefColumn(c)
  {}

  lemma BodyIsAll(ctx: Context)
    requires Sound(ctx) && !ctx.spec.documentType.InspectionRecord?
    ensures BodyPrefix(ctx, |Rows(ctx)|) <==> Mappable(ctx)
  {
    NoRefColumns(ctx);
    hide Sound, CellValue, ColumnKeys, RowsApart, SameReferences;
    forall i | 0 <= i < |Rows(ctx)| ensures BodyReadable(ctx, Rows(ctx)[i]) <==> Readable(ctx, Rows(ctx)[i]) {}
  }

  method BuildCharacteristicDocument(ctx: Context, prov: ProvenanceList) returns (r: Option<Fields>)
    requires Sound(ctx) && (ctx.spec.documentType.ControlPlan? || ctx.spec.documentType.Sop?)
    requires prov.Valid() && prov.entries == []
    modifies prov
    ensures prov.Valid()
    ensures r.Some? <==> Mappable(ctx)
    ensures r.Some? ==> Recorded(prov, RowFeeds(ctx, |Rows(ctx)|)) && r.value == FieldsOf(ctx)
  {
    hide Groups, Sound, BodyPrefix, Mappable, RowFeeds, StepsOf;
    BodyIsAll(ctx);
    var built := BuildCharacteristics(ctx, prov);
    if built.None? { return None; }
    return Some(CharacteristicFields(built.value.0, built.value.1, map[]));
  }

  // ---------- Inspection records ----------

  /** The references of the rows before `n` all read like row 0's. */
  ghost predicate ReferencesAgree(ctx: Context, n: nat)
    requires n <= |Rows(ctx)|
  {
    forall i :: 0 <= i < n ==> RefsRead(ctx, Rows(ctx)[i]) && SameReferences(ctx, Rows(ctx)[0], Rows(ctx)[i])
  }

  ghost predicate RefsRead(ctx: Context, row: MappedRow) {
    forall k :: 0 <= k < 4 ==> Read(ctx, row, RefColumns()[k].1)
  }

  /** Feeds of the reference columns of rows before `n` and of the first `k` reference columns of row `n`. */
  ghost function RefFeedsTo(ctx: Context, n: nat, k: nat): seq<Feed>
    requires n < |Rows(ctx)| && k <= |RefPairs(ctx)|
  {
    RefFeeds(ctx, n) + FeedsOf(ctx, Rows(ctx)[n], RefPairs(ctx)[..k])
  }

  lemma {:induction false} RefFeedsFrom(ctx: Context, n: nat, g: Feed) returns (i: nat, k: nat)
    requires n <= |Rows(ctx)| && g in RefFeeds(ctx, n)
    ensures i < n && k < |RefPairs(ctx)| && g == FeedAt(ctx, Rows(ctx)[i], RefPairs(ctx)[k])
  {
    hide FeedAt, FeedsOf, RefPairs;
    var last := FeedsOf(ctx, Rows(ctx)[n - 1], RefPairs(ctx));
    if g in last {
      k :| 0 <= k < |last| && last[k] == g;
      i := n - 1;
    } else {
      i, k := RefFeedsFrom(ctx, n - 1, g);
    }
  }

  lemma RefDistinct(ctx: Context, j: nat, k: nat)
    requires j < |RefPairs(ctx)| && k < |RefPairs(ctx)| && PathOf(RefPairs(ctx)[j].0) == PathOf(RefPairs(ctx)[k].0)
    ensures j == k
  {
    PathsDiffer(RefPairs(ctx)[j].0, RefPairs(ctx)[k].0);
    assert RefPairs(ctx)[j].0 == RefPairs(ctx)[k].0;
  }

  lemma RefNeverOfRow(ctx: Context, k: nat, i: nat, q: Pair)
    requires k < |RefPairs(ctx)| && i < |Rows(ctx)| && OfRow(ctx, i, q)
    ensures PathOf(RefPairs(ctx)[k].0) != PathOf(q.0)
  {
    PathsDiffer(RefPairs(ctx)[k].0, q.0);
  }

  lemma RefValue(ctx: Context, row: MappedRow, k: nat)
    requires k < |RefPairs(ctx)| && Read(ctx, row, RefPairs(ctx)[k].1)
    ensures ValueOf(ctx, row, RefPairs(ctx)[k].1) == Str(TextOf(ctx, row, RefPairs(ctx)[k].1))
    ensures RefPairs(ctx)[k].1 in row.cells
  {}

  /** Two reference cells of different rows under one column: equal texts join, and they are different cells. */
  lemma RefFeedJoins(ctx: Context, n: nat, k: nat)
    requires Sound(ctx) && n < |Rows(ctx)| && k < |RefPairs(ctx)|
    requires ReadableBelow(ctx, |Rows(ctx)|) && ReferencesAgree(ctx, n) && Read(ctx, Rows(ctx)[n], RefPairs(ctx)[k].1)
    requires n > 0 ==> TextOf(ctx, Rows(ctx)[0], RefPairs(ctx)[k].1) == TextOf(ctx, Rows(ctx)[n], RefPairs(ctx)[k].1)
    ensures Joins(RowFeeds(ctx, |Rows(ctx)|) + RefFeedsTo(ctx, n, k), FeedAt(ctx, Rows(ctx)[n], RefPairs(ctx)[k]))
  {
    hide PathOf, RowFeeds, Sound, ReadableBelow, CellValue, RefPairs, OfRow, TextOf, SourceAt, ValueOf;
    var f := FeedAt(ctx, Rows(ctx)[n], RefPairs(ctx)[k]);
    var part := FeedsOf(ctx, Rows(ctx)[n], RefPairs(ctx)[..k]);
    RowFeedsFromRows(ctx, |Rows(ctx)|);
    RefValue(ctx, Rows(ctx)[n], k);
    forall g | g in RowFeeds(ctx, |Rows(ctx)|) + RefFeedsTo(ctx, n, k) && g.target == f.target
      ensures g.value == f.value && g.source != f.source
    {
      if g in RowFeeds(ctx, |Rows(ctx)|) {
        RowFeedNotRef(ctx, g, k);
      } else if g in part {
        var j :| 0 <= j < |part| && part[j] == g;
        RefDistinct(ctx, j, k);
      } else {
        var i, j := RefFeedsFrom(ctx, n, g);
        RefDistinct(ctx, j, k);
        AgreeAt(ctx, n, i, k);
        RefValue(ctx, Rows(ctx)[i], k);
        SourcesApart(ctx, i, n, RefPairs(ctx)[k].1, RefPairs(ctx)[k].1);
      }
    }
  }

  lemma RowFeedNotRef(ctx: Context, g: Feed, k: nat)
    requires Sound(ctx) && ReadableBelow(ctx, |Rows(ctx)|) && g in RowFeeds(ctx, |Rows(ctx)|) && k < |RefPairs(ctx)|
    ensures g.target != PathOf(RefPairs(ctx)[k].0)
  {
    hide PathOf, RefPairs, Sound, ReadableBelow;
    var i, j := RowFeedFrom(ctx, |Rows(ctx)|, g);
    RowRoles(ctx, i);
    RefNeverOfRow(ctx, k, i, RowPairs(ctx, i)[j]);
  }

  lemma {:induction false} RowFeedFrom(ctx: Context, n: nat, g: Feed) returns (i: nat, k: nat)
    requires n <= |Rows(ctx)| && g in RowFeeds(ctx, n)
    ensures i < n && k < |RowPairs(ctx, i)| && g == FeedAt(ctx, Rows(ctx)[i], RowPairs(ctx, i)[k])
  {
    hide RowPairs;
    var last := FeedsOf(ctx, Rows(ctx)[n - 1], RowPairs(ctx, n - 1));
    if g in last {
      k :| 0 <= k < |last| && last[k] == g;
      i := n - 1;
    } else {
      i, k := RowFeedFrom(ctx, n - 1, g);
    }
  }

  lemma AgreeAt(ctx: Context, n: nat, i: nat, k: nat)
    requires i < n <= |Rows(ctx)| && ReferencesAgree(ctx, n) && k < |RefPairs(ctx)|
    ensures Read(ctx, Rows(ctx)[i], RefPairs(ctx)[k].1)
    ensures TextOf(ctx, Rows(ctx)[i], RefPairs(ctx)[k].1) == TextOf(ctx, Rows(ctx)[0], RefPairs(ctx)[k].1)
  {}

  /** The four reference mappings of row `n`; fails on a missing cell or on a value unlike the earlier ones. */
  method RecordReferences(ctx: Context, prov: ProvenanceList, n: nat, identity: map<Role, string>)
    returns (r: Option<map<Role, string>>)
    requires Sound(ctx) && ctx.spec.documentType.InspectionRecord? && n < |Rows(ctx)|
    requires ReadableBelow(ctx, |Rows(ctx)|) && ReferencesAgree(ctx, n)
    requires Identities(ctx, identity, if n == 0 then 0 else 4)
    requires Recorded(prov, RowFeeds(ctx, |Rows(ctx)|) + RefFeeds(ctx, n))
    modifies prov
    ensures prov.Valid()
    ensures r.Some? <==> ReferencesAgree(ctx, n + 1)
    ensures r.Some? ==> Identities(ctx, r.value, 4)
    ensures r.Some? ==> Recorded(prov, RowFeeds(ctx, |Rows(ctx)|) + RefFeeds(ctx, n + 1))
  {
    hide PathOf, RowFeeds, Sound, ReadableBelow, FeedsOf, Groups, CellValue, TextOf, RefColumns;
    var known := identity;
    var k := 0;
    RefFeedsStart(ctx, n);
    RefPairsAll(ctx);
    while k < 4
      invariant 0 <= k <= 4
      invariant Identities(ctx, known, if n == 0 then k else 4)
      invariant forall j :: 0 <= j < k ==> RefAgrees(ctx, n, j)
      invariant Recorded(prov, RowFeeds(ctx, |Rows(ctx)|) + RefFeedsTo(ctx, n, k))
    {
      var next := RecordReference(ctx, prov, n, k, known);
      if next.None? {
        AgreeNext(ctx, n);
        return None;
      }
      known := next.value;
      k := k + 1;
    }
    RefFeedsEnd(ctx, n);
    AgreeNext(ctx, n);
    return Some(known);
  }

  lemma AgreeNext(ctx: Context, n: nat)
    requires n < |Rows(ctx)| && ReferencesAgree(ctx, n)
    ensures ReferencesAgree(ctx, n + 1) <==> forall j :: 0 <= j < 4 ==> RefAgrees(ctx, n, j)
  {
    assert |RefColumns()| == 4;
    hide Read, TextOf, RefColumns;
    if ReferencesAgree(ctx, n + 1) {
      assert RefsRead(ctx, Rows(ctx)[n]) && SameReferences(ctx, Rows(ctx)[0], Rows(ctx)[n]);
      forall j | 0 <= j < 4 ensures RefAgrees(ctx, n, j) {}
    }
    if forall j :: 0 <= j < 4 ==> RefAgrees(ctx, n, j) {
      forall j | 0 <= j < 4
        ensures Read(ctx, Rows(ctx)[n], RefColumns()[j].1)
        ensures TextOf(ctx, Rows(ctx)[0], RefColumns()[j].1) == TextOf(ctx, Rows(ctx)[n], RefColumns()[j].1)
      {
        assert RefAgrees(ctx, n, j);
      }
    }
  }

  lemma RefPairsAll(ctx: Context)
    requires ctx.spec.documentType.InspectionRecord?
    ensures RefPairs(ctx) == RefColumns() && |RefColumns()| == 4
    ensures forall j, k :: 0 <= j < k < 4 ==> RefColumns()[j].0 != RefColumns()[k].0
    ensures forall k :: 0 <= k < 4 ==> IsRefColumn(RefColumns()[k].1)
  {}

  /** Row `n` has the `j`-th reference, and it reads like row 0's. */
  ghost predicate RefAgrees(ctx: Context, n: nat, j: nat)
    requires n < |Rows(ctx)| && j < 4
  {
    Read(ctx, Rows(ctx)[n], RefColumns()[j].1) &&
    TextOf(ctx, Rows(ctx)[0], RefColumns()[j].1) == TextOf(ctx, Rows(ctx)[n], RefColumns()[j].1)
  }

  method RecordReference(ctx: Context, prov: ProvenanceList, n: nat, k: nat, identity: map<Role, string>)
    returns (r: Option<map<Role, string>>)
    requires Sound(ctx) && ctx.spec.documentType.InspectionRecord? && n < |Rows(ctx)| && k < 4
    requires ReadableBelow(ctx, |Rows(ctx)|) && ReferencesAgree(ctx, n)
    requires Identities(ctx, identity, if n == 0 then k else 4)
    requires |RefPairs(ctx)| == 4 && Recorded(prov, RowFeeds(ctx, |Rows(ctx)|) + RefFeedsTo(ctx, n, k))
    modifies prov
    ensures prov.Valid()
    ensures r.Some? <==> RefAgrees(ctx, n, k)
    ensures r.Some? ==> Identities(ctx, r.value, if n == 0 then k + 1 else 4)
    ensures r.Some? ==> Recorded(prov, RowFeeds(ctx, |Rows(ctx)|) + RefFeedsTo(ctx, n, k + 1))
  {
    hide PathOf, RowFeeds, Sound, ReadableBelow, FeedsOf, Groups, CellValue, TextOf, RefColumns, RefPairs, Joins, ReferencesAgree, Recorded;
    assert prov.Valid() by { RecordedValid(prov, RowFeeds(ctx, |Rows(ctx)|) + RefFeedsTo(ctx, n, k)); }
    RefPairsAll(ctx);
    var row := Rows(ctx)[n];
    var (role, c) := RefColumns()[k];
    var value := RequiredText(ctx, row, c);
    if value.None? {
      return None;
    }
    if role in identity && identity[role] != value.value {
      return None;
    }
    RefFeedJoins(ctx, n, k);
    RefValue(ctx, row, k);
    ghost var fed := RowFeeds(ctx, |Rows(ctx)|) + RefFeedsTo(ctx, n, k);
    var f := Feed(PathOf(role), Str(value.value), SourceAt(ctx, row, c));
    RefFeedsNext(ctx, n, k);
    AppendJoining(prov, fed, f);
    return Some(identity[role := value.value]);
  }

  /** The identities seen so far are row 0's, for the first `k` reference columns. */
  ghost predicate Identities(ctx: Context, identity: map<Role, string>, k: nat)
    requires k <= 4
  {
    && (k > 0 ==> Rows(ctx) != [])
    && (forall j :: 0 <= j < k ==>
          RefColumns()[j].0 in identity && identity[RefColumns()[j].0] == TextOf(ctx, Rows(ctx)[0], RefColumns()[j].1))
    && (forall j :: k <= j < 4 ==> RefColumns()[j].0 !in identity)
  }

  lemma RefFeedsStart(ctx: Context, n: nat)
    requires n < |Rows(ctx)|
    ensures RowFeeds(ctx, |Rows(ctx)|) + RefFeedsTo(ctx, n, 0) == RowFeeds(ctx, |Rows(ctx)|) + RefFeeds(ctx, n)
  {}

  lemma RefFeedsNext(ctx: Context, n: nat, k: nat)
    requires n < |Rows(ctx)| && k < |RefPairs(ctx)|
    ensures RowFeeds(ctx, |Rows(ctx)|) + RefFeedsTo(ctx, n, k + 1) ==
      RowFeeds(ctx, |Rows(ctx)|) + RefFeedsTo(ctx, n, k) + [FeedAt(ctx, Rows(ctx)[n], RefPairs(ctx)[k])]
  {
    var pairs, before := RefPairs(ctx), RefFeeds(ctx, n);
    hide RefPairs, RefFeeds, FeedAt, RowFeeds, FeedsOf;
    FeedsOfStep(ctx, before, Rows(ctx)[n], pairs[..k], pairs[k]);
    assert pairs[..k + 1] == pairs[..k] + [pairs[k]];
  }

  lemma RefFeedsEnd(ctx: Context, n: nat)
    requires n < |Rows(ctx)| && ctx.spec.documentType.InspectionRecord?
    ensures RefFeedsTo(ctx, n, 4) == RefFeeds(ctx, n + 1)
  {
    assert RefPairs(ctx)[..4] == RefPairs(ctx);
  }

  lemma InspectionMappable(ctx: Context)
    requires Sound(ctx) && ctx.spec.documentType.InspectionRecord?
    ensures Mappable(ctx) <==> BodyPrefix(ctx, |Rows(ctx)|) && ReferencesAgree(ctx, |Rows(ctx)|)
  {
    forall i | 0 <= i < |Rows(ctx)|
      ensures Readable(ctx, Rows(ctx)[i]) <==> BodyReadable(ctx, Rows(ctx)[i]) && RefsRead(ctx, Rows(ctx)[i])
    {
      ReadableParts(ctx, Rows(ctx)[i]);
    }
    hide Readable, BodyReadable, RefsRead, RowsApart, SameReferences;
  }

  lemma ReadableParts(ctx: Context, row: MappedRow)
    requires Sound(ctx) && ctx.spec.documentType.InspectionRecord?
    ensures Readable(ctx, row) <==> BodyReadable(ctx, row) && RefsRead(ctx, row)
  {
    InspectionColumns(ctx);
    hide CellValue, Sound, ColumnKeys, RefColumns, IsRefColumn;
    if BodyReadable(ctx, row) && RefsRead(ctx, row) {
      forall c | c in ColumnKeys(ctx.spec) ensures CellValue(ctx.conv, row, c).Some? {
        if IsRefColumn(c) {
          var k :| 0 <= k < 4 && RefColumns()[k].1 == c;
          assert Read(ctx, row, RefColumns()[k].1);
        }
      }
    }
    if Readable(ctx, row) {
      forall k | 0 <= k < 4 ensures Read(ctx, row, RefColumns()[k].1) {
        assert RefColumns()[k].1 in ColumnKeys(ctx.spec);
      }
    }
  }

  lemma InspectionColumns(ctx: Context)
    requires Sound(ctx) && ctx.spec.documentType.InspectionRecord?
    ensures |RefColumns()| == 4 && forall k :: 0 <= k < 4 ==> RefColumns()[k].1 in ColumnKeys(ctx.spec)
    ensures forall c :: IsRefColumn(c) ==> exists k :: 0 <= k < 4 && RefColumns()[k].1 == c
  {
    RefColumnsRequired();
    hide RefColumns, IsRefColumn;
    assert RequiredColumns(InspectionRecord) <= ColumnKeys(ctx.spec);
  }

  lemma RefColumnsRequired()
    ensures |RefColumns()| == 4 && forall k :: 0 <= k < 4 ==> RefColumns()[k].1 in RequiredColumns(InspectionRecord)
    ensures forall c :: IsRefColumn(c) ==> exists k :: 0 <= k < 4 && RefColumns()[k].1 == c
  {
    assert RefColumns()[0].1 == SopDocumentId && RefColumns()[1].1 == SopRevision;
    assert RefColumns()[2].1 == ControlPlanDocumentId && RefColumns()[3].1 == ControlPlanRevision;
  }

  /** All four identities known: they are the first row's references. */
  lemma FirstRowReferences(ctx: Context, identity: map<Role, string>)
    requires ctx.spec.documentType.InspectionRecord? && Identities(ctx, identity, 4)
    ensures forall t :: RefRole(t, RefDocumentId) in identity && RefRole(t, RefRevision) in identity
    ensures ReferencesOf(ctx) == map[
      ToSop := Reference(identity[RefRole(ToSop, RefDocumentId)], identity[RefRole(ToSop, RefRevision)]),
      ToControlPlan := Reference(identity[RefRole(ToControlPlan, RefDocumentId)], identity[RefRole(ToControlPlan, RefRevision)])]
  {
    hide TextOf;
    assert RefColumns()[0].0 in identity && RefColumns()[1].0 in identity && RefColumns()[2].0 in identity && RefColumns()[3].0 in identity;
    forall t ensures RefRole(t, RefDocumentId) in identity && RefRole(t, RefRevision) in identity {
      assert t == ToSop || t == ToControlPlan;
    }
  }

  method BuildInspectionRecord(ctx: Context, prov: ProvenanceList) returns (r: Option<Fields>)
    requires Sound(ctx) && ctx.spec.documentType.InspectionRecord? && Rows(ctx) != []
    requires prov.Valid() && prov.entries == []
    modifies prov
    ensures prov.Valid()
    ensures r.Some? <==> Mappable(ctx)
    ensures r.Some? ==> Recorded(prov, RowFeeds(ctx, |Rows(ctx)|) + RefFeeds(ctx, |Rows(ctx)|)) && r.value == FieldsOf(ctx)
  {
    hide Groups, Sound, BodyPrefix, Mappable, RowFeeds, StepsOf, ReadableBelow, SameReferences, TextOf, RefsRead;
    InspectionMappable(ctx);
    var built := BuildCharacteristics(ctx, prov);
    if built.None? { return None; }
    BodyReadableBelow(ctx);
    var identity: map<Role, string> := map[];
    var n := 0;
    assert RowFeeds(ctx, |Rows(ctx)|) + RefFeeds(ctx, 0) == RowFeeds(ctx, |Rows(ctx)|);
    while n < |Rows(ctx)|
      invariant 0 <= n <= |Rows(ctx)|
      invariant ReferencesAgree(ctx, n)
      invariant Identities(ctx, identity, if n == 0 then 0 else 4)
      invariant Recorded(prov, RowFeeds(ctx, |Rows(ctx)|) + RefFeeds(ctx, n))
    {
      var known := RecordReferences(ctx, prov, n, identity);
      if known.None? { return None; }
      identity := known.value;
      n := n + 1;
    }
    FirstRowReferences(ctx, identity);
    hide Identities, ReferencesAgree;
    var references := map[
      ToSop := Reference(identity[RefRole(ToSop, RefDocumentId)], identity[RefRole(ToSop, RefRevision)]),
      ToControlPlan := Reference(identity[RefRole(ToControlPlan, RefDocumentId)], identity[RefRole(ToControlPlan, RefRevision)])];
    assert references == ReferencesOf(ctx);
    return Some(CharacteristicFields(built.value.0, built.value.1, references));
  }

  lemma BodyReadableBelow(ctx: Context)
    requires BodyPrefix(ctx, |Rows(ctx)|)
    ensures ReadableBelow(ctx, |Rows(ctx)|)
  {}
}

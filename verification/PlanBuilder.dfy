/** The independent derivation: one pass over the mapped rows that fills the evidence plan. */
module PlanBuilder {
  import opened Json
  import opened Ordering
  import opened Provenance
  import opened EvidencePlanning
  import opened Tables
  import opened Roles
  import opened Feeds
  import opened Builder

  /** Row `i`'s locator leaf, tied to its anchor leaf and to the anchor's cell. */
  function LocatorEntry(ctx: Context, i: nat): Entry
    requires i < |Rows(ctx)|
  {
    var row := Rows(ctx)[i];
    if ctx.spec.documentType.Pfmea? then
      DerivedLocator(PathOf(RiskLocator(i)), Str(CellAt(row, FailureModeId).locator), SourceAt(ctx, row, FailureModeId),
                     PathOf(RiskRole(i, FailureModeId)), LOCATOR_CONTRACT)
    else
      DerivedLocator(PathOf(CharLocator(i)), Str(CellAt(row, CharacteristicId).locator), SourceAt(ctx, row, CharacteristicId),
                     PathOf(CharRole(i, CharacteristicId)), LOCATOR_CONTRACT)
  }

  /** The dictionary of the first `n` rows' locators. */
  function Locators(ctx: Context, n: nat): map<Path, Entry>
    requires n <= |Rows(ctx)|
  {
    if n == 0 || ctx.spec.documentType.ProcessFlow? then map[]
    else Locators(ctx, n - 1)[LocatorEntry(ctx, n - 1).target := LocatorEntry(ctx, n - 1)]
  }

  ghost predicate Planned(plan: EvidencePlan, feeds: seq<Feed>, locators: map<Path, Entry>)
    reads plan
  {
    plan.Valid() && PlanGroups(plan.contributors, feeds) && plan.derived == locators
  }

  /** One contribution; the plan accepts it exactly when `PlanAccepts` says so. */
  method AddFeed(plan: EvidencePlan, ghost fed: seq<Feed>, ghost locators: map<Path, Entry>, f: Feed) returns (accepted: bool)
    requires Planned(plan, fed, locators)
    modifies plan
    ensures plan.Valid()
    ensures accepted <==> PlanAccepts(fed, f)
    ensures accepted ==> Planned(plan, fed + [f], locators)
  {
    AddRegroups(plan.contributors, fed, f);
    assert PlannedAt(plan.contributors, fed, f.target);
    accepted := plan.Add(f.target, f.value, f.source);
  }

  ghost predicate ReadableRows(ctx: Context, n: nat)
    requires n <= |Rows(ctx)|
  {
    forall i :: 0 <= i < n ==> Readable(ctx, Rows(ctx)[i])
  }

  lemma FedFromRows(ctx: Context, n: nat)
    requires Sound(ctx) && n <= |Rows(ctx)| && ReadableRows(ctx, n)
    ensures FromRows(ctx, PlanFeeds(ctx, n), n)
  {
    PlanFeedsFromRows(ctx, n);
  }

  /** A row contribution is never refused. */
  method AddRowFeed(ctx: Context, plan: EvidencePlan, n: nat, ghost done: seq<Pair>, p: Pair, value: Json)
    requires Sound(ctx) && n < |Rows(ctx)| && ReadableRows(ctx, n)
    requires OfRow(ctx, n, p) && CellValue(ctx.conv, Rows(ctx)[n], p.1) == Some(value)
    requires forall k :: 0 <= k < |done| ==> done[k].0 != p.0
    requires Planned(plan, PlanFeeds(ctx, n) + FeedsOf(ctx, Rows(ctx)[n], done), plan.derived)
    modifies plan
    ensures plan.Valid() && Planned(plan, PlanFeeds(ctx, n) + FeedsOf(ctx, Rows(ctx)[n], done + [p]), old(plan.derived))
  {
    hide Sound, ReadableRows, PlanGroups, OfRow, PathOf, FeedsOf, PlanFeeds, Joins, PlanAccepts;
    ghost var fed := PlanFeeds(ctx, n) + FeedsOf(ctx, Rows(ctx)[n], done);
    var f := Feed(PathOf(p.0), value, SourceAt(ctx, Rows(ctx)[n], p.1));
    FedFromRows(ctx, n);
    RowFeedJoins(ctx, PlanFeeds(ctx, n), n, done, p);
    JoinsIsAccepted(fed, f);
    FeedsOfStep(ctx, PlanFeeds(ctx, n), Rows(ctx)[n], done, p);
    var accepted := AddFeed(plan, fed, plan.derived, f);
    assert accepted;
  }

  /** The plan after row `n`'s first `k` contributions, with the locators of the rows before it. */
  ghost predicate PlannedTo(ctx: Context, plan: EvidencePlan, n: nat, k: nat)
    requires n < |Rows(ctx)| && k <= |RowPairs(ctx, n)|
    reads plan
  {
    Planned(plan, PlanFeeds(ctx, n) + FeedsOf(ctx, Rows(ctx)[n], RowPairs(ctx, n)[..k]), Locators(ctx, n))
  }

  /** `plan.add` for the leaves `RowPairs` lists from `from` on. */
  method AddRow(ctx: Context, plan: EvidencePlan, n: nat, from: nat, roles: seq<Role>, values: seq<(Canonical, Json)>)
    requires Sound(ctx) && n < |Rows(ctx)| && ReadableRows(ctx, n)
    requires |roles| == |values| && from + |values| <= |RowPairs(ctx, n)|
    requires forall k :: 0 <= k < |values| ==>
      RowPairs(ctx, n)[from + k] == (roles[k], values[k].0) && CellValue(ctx.conv, Rows(ctx)[n], values[k].0) == Some(values[k].1)
    requires PlannedTo(ctx, plan, n, from)
    modifies plan
    ensures PlannedTo(ctx, plan, n, from + |values|)
  {
    hide Sound, ReadableRows, PlanGroups, OfRow, PathOf, FeedsOf, PlanFeeds, Locators, RowPairs, CellValue;
    RowRoles(ctx, n);
    ghost var pairs := RowPairs(ctx, n);
    var k := 0;
    while k < |values|
      invariant 0 <= k <= |values|
      invariant PlannedTo(ctx, plan, n, from + k)
    {
      assert pairs[from + k] == (roles[k], values[k].0);
      AddRowFeed(ctx, plan, n, pairs[..from + k], (roles[k], values[k].0), values[k].1);
      assert pairs[..from + k] + [pairs[from + k]] == pairs[..from + (k + 1)];
      k := k + 1;
    }
  }

  /** No feed targets a locator leaf. */
  lemma NoLocatorFed(ctx: Context, feeds: seq<Feed>, n: nat, t: Path, role: Role)
    requires n <= |Rows(ctx)| && FromRows(ctx, feeds, n) && t == PathOf(role) && (role.RiskLocator? || role.CharLocator?)
    ensures Contributors(feeds, t) == []
  {
    hide PathOf, StepIndex;
    forall f | f in feeds ensures f.target != t {
      assert FromSomeRow(ctx, f, n);
      var i: nat, p: Pair :| i < n && TakenFrom(ctx, f, i, p);
      PathsDiffer(p.0, role);
    }
    NoTarget(feeds, t);
  }

  function LocatorRole(ctx: Context, i: nat): Role {
    if ctx.spec.documentType.Pfmea? then RiskLocator(i) else CharLocator(i)
  }

  lemma {:induction false} LocatorKeys(ctx: Context, n: nat)
    requires n <= |Rows(ctx)| && !ctx.spec.documentType.ProcessFlow?
    ensures forall t :: t in Locators(ctx, n) <==> exists i: nat :: i < n && t == PathOf(LocatorRole(ctx, i))
    ensures forall i: nat :: i < n ==> Locators(ctx, n)[PathOf(LocatorRole(ctx, i))] == LocatorEntry(ctx, i)
  {
    hide PathOf, LocatorEntry, LocatorRole;
    if n > 0 {
      LocatorKeys(ctx, n - 1);
      LocatorTarget(ctx, n - 1);
      forall i: nat | i < n ensures PathOf(LocatorRole(ctx, i)) == PathOf(LocatorRole(ctx, n - 1)) ==> i == n - 1 {
        LocatorsDiffer(ctx, i, n - 1);
      }
    }
  }

  lemma LocatorTarget(ctx: Context, i: nat)
    requires i < |Rows(ctx)|
    ensures LocatorEntry(ctx, i).target == PathOf(LocatorRole(ctx, i))
  {}

  lemma LocatorsDiffer(ctx: Context, i: nat, j: nat)
    ensures PathOf(LocatorRole(ctx, i)) == PathOf(LocatorRole(ctx, j)) ==> i == j
  {
    PathsDiffer(LocatorRole(ctx, i), LocatorRole(ctx, j));
  }

  /** `plan.add_derived` for row `n`; never refused. */
  method AddLocator(ctx: Context, plan: EvidencePlan, n: nat, e: Entry)
    requires Sound(ctx) && n < |Rows(ctx)| && ReadableRows(ctx, n) && BodyReadable(ctx, Rows(ctx)[n])
    requires !ctx.spec.documentType.ProcessFlow? && e == LocatorEntry(ctx, n)
    requires PlannedTo(ctx, plan, n, |RowPairs(ctx, n)|)
    modifies plan
    ensures plan.Valid() && Planned(plan, PlanFeeds(ctx, n) + FeedsOf(ctx, Rows(ctx)[n], RowPairs(ctx, n)), Locators(ctx, n + 1))
  {
    hide Sound, ReadableRows, PlanGroups, PathOf, FeedsOf, PlanFeeds, RowPairs;
    ghost var fed := PlanFeeds(ctx, n) + FeedsOf(ctx, Rows(ctx)[n], RowPairs(ctx, n));
    assert RowPairs(ctx, n)[..|RowPairs(ctx, n)|] == RowPairs(ctx, n);
    LocatorFree(ctx, n, plan.contributors, fed);
    var accepted := plan.AddDerived(e.target, e.value, e.anchor, e.source);
    assert accepted;
  }

  lemma LocatorFree(ctx: Context, n: nat, contributors: map<Path, Contribution>, fed: seq<Feed>)
    requires Sound(ctx) && n < |Rows(ctx)| && ReadableRows(ctx, n) && BodyReadable(ctx, Rows(ctx)[n])
    requires !ctx.spec.documentType.ProcessFlow?
    requires fed == PlanFeeds(ctx, n) + FeedsOf(ctx, Rows(ctx)[n], RowPairs(ctx, n)) && PlanGroups(contributors, fed)
    ensures LocatorEntry(ctx, n).target !in contributors && LocatorEntry(ctx, n).target !in Locators(ctx, n)
  {
    hide Sound, ReadableRows, PathOf, FeedsOf, PlanFeeds, RowPairs, Contributors, Locators, CellValue;
    var role := LocatorRole(ctx, n);
    var t := PathOf(role);
    FedFromRows(ctx, n);
    RowRoles(ctx, n);
    FromRowsStep(ctx, PlanFeeds(ctx, n), n, RowPairs(ctx, n));
    NoLocatorFed(ctx, fed, n + 1, t, role);
    assert PlannedAt(contributors, fed, t);
    LocatorKeys(ctx, n);
    forall i: nat | i < n ensures PathOf(LocatorRole(ctx, i)) != t {
      PathsDiffer(LocatorRole(ctx, i), role);
    }
  }

  lemma StartOfPlan(ctx: Context)
    ensures PlanGroups(map[], PlanFeeds(ctx, 0)) && Locators(ctx, 0) == map[]
  {}

  lemma StartOfRow(ctx: Context, n: nat)
    requires n < |Rows(ctx)|
    ensures PlanFeeds(ctx, n) + FeedsOf(ctx, Rows(ctx)[n], RowPairs(ctx, n)[..0]) == PlanFeeds(ctx, n)
  {}

  lemma EndOfRow(ctx: Context, n: nat)
    requires n < |Rows(ctx)| && !ctx.spec.documentType.InspectionRecord?
    ensures PlanFeeds(ctx, n + 1) == PlanFeeds(ctx, n) + FeedsOf(ctx, Rows(ctx)[n], RowPairs(ctx, n))
  {
    hide RowPairs;
    assert FeedsOf(ctx, Rows(ctx)[n], RefPairs(ctx)) == [];
  }

  lemma PrefixReadable(ctx: Context, n: nat)
    requires n <= |Rows(ctx)| && MappablePrefix(ctx, n)
    ensures ReadableRows(ctx, n)
  {}

  lemma ReadableBody(ctx: Context, row: MappedRow)
    requires Readable(ctx, row)
    ensures BodyReadable(ctx, row)
  {}

  // ---------- Process flow ----------

  method PlanProcessFlow(ctx: Context, plan: EvidencePlan) returns (ok: bool)
    requires Sound(ctx) && ctx.spec.documentType.ProcessFlow?
    requires plan.Valid() && plan.contributors == map[] && plan.derived == map[]
    modifies plan
    ensures plan.Valid()
    ensures ok <==> Mappable(ctx)
    ensures ok ==> Planned(plan, PlanFeeds(ctx, |Rows(ctx)|), Locators(ctx, |Rows(ctx)|))
  {
    hide Sound, PlanGroups, StepsOf, StepIndex, MappablePrefix, Mappable, RowPairs, PlanFeeds, Locators, FeedsOf, ReadableRows;
    StartOfPlan(ctx);
    StartOfRows(ctx);
    var seenSteps: set<string> := {};
    var index := 0;
    MappableIsPrefix(ctx);
    while index < |Rows(ctx)|
      invariant 0 <= index <= |Rows(ctx)|
      invariant MappablePrefix(ctx, index)
      invariant seenSteps == set s | s in StepsOf(ctx, index)
      invariant Planned(plan, PlanFeeds(ctx, index), Locators(ctx, index))
    {
      var row := Rows(ctx)[index];
      ProcessFlowExtends(ctx, index);
      NotMappableAfter(ctx, index);
      var step := RequiredText(ctx, row, ProcessStepId);
      if step.None? {
        NoText(ctx, row, ProcessStepId);
        return false;
      }
      if step.value in seenSteps {
        return false;
      }
      seenSteps := seenSteps + {step.value};
      ProcessFlowSlot(ctx, index);
      PrefixReadable(ctx, index);
      StartOfRow(ctx, index);
      AddRow(ctx, plan, index, 0, [StepRole(index)], [(ProcessStepId, Str(step.value))]);
      ProcessFlowRowEnds(ctx, index);
      StepOnlyReadable(ctx, row);
      index := index + 1;
    }
    return true;
  }

  lemma MappableIsPrefix(ctx: Context)
    ensures Mappable(ctx) <==> MappablePrefix(ctx, |Rows(ctx)|)
  {}

  lemma ProcessFlowRowEnds(ctx: Context, n: nat)
    requires ctx.spec.documentType.ProcessFlow? && n < |Rows(ctx)|
    ensures |RowPairs(ctx, n)| == 1 && Locators(ctx, n + 1) == Locators(ctx, n)
    ensures PlanFeeds(ctx, n) + FeedsOf(ctx, Rows(ctx)[n], RowPairs(ctx, n)[..1]) == PlanFeeds(ctx, n + 1)
  {
    EndOfRow(ctx, n);
    assert RowPairs(ctx, n)[..1] == RowPairs(ctx, n);
  }

  // ---------- PFMEA ----------

  method PlanPfmea(ctx: Context, plan: EvidencePlan) returns (ok: bool)
    requires Sound(ctx) && ctx.spec.documentType.Pfmea?
    requires plan.Valid() && plan.contributors == map[] && plan.derived == map[]
    modifies plan
    ensures plan.Valid()
    ensures ok <==> Mappable(ctx)
    ensures ok ==> Planned(plan, PlanFeeds(ctx, |Rows(ctx)|), Locators(ctx, |Rows(ctx)|))
  {
    hide Sound, PlanGroups, StepsOf, StepIndex, MappablePrefix, Mappable, RowPairs, PlanFeeds, Locators, FeedsOf, ReadableRows;
    StartOfPlan(ctx);
    StartOfRows(ctx);
    MappableIsPrefix(ctx);
    var stepIndexes: map<string, nat> := map[];
    var steps: seq<string> := [];
    var failureModes: set<string> := {};
    var index := 0;
    while index < |Rows(ctx)|
      invariant 0 <= index <= |Rows(ctx)|
      invariant MappablePrefix(ctx, index)
      invariant steps == StepsOf(ctx, index) && Indexed(steps, stepIndexes)
      invariant failureModes == TextsOf(ctx, index, FailureModeId)
      invariant Planned(plan, PlanFeeds(ctx, index), Locators(ctx, index))
    {
      PfmeaExtends(ctx, index);
      NotMappableAfter(ctx, index);
      PrefixReadable(ctx, index);
      StartOfRow(ctx, index);
      var row := Rows(ctx)[index];
      var step := RequiredText(ctx, row, ProcessStepId);
      if step.None? { NoText(ctx, row, ProcessStepId); return false; }
      var stepIndex;
      stepIndex, steps, stepIndexes := TakeStep(ctx, index, steps, stepIndexes);
      StepFirst(ctx, index);
      AddRow(ctx, plan, index, 0, [StepRole(stepIndex)], [(ProcessStepId, Str(step.value))]);
      var failureId := RequiredText(ctx, row, FailureModeId);
      if failureId.None? { NoText(ctx, row, FailureModeId); return false; }
      if failureId.value in failureModes { return false; }
      failureModes := failureModes + {failureId.value};
      var ok' := PlanRisk(ctx, plan, index, failureId.value, step.value);
      if !ok' { return false; }
      index := index + 1;
    }
    return true;
  }

  lemma StepFirst(ctx: Context, n: nat)
    requires n < |Rows(ctx)|
    ensures |RowPairs(ctx, n)| > 0 && RowPairs(ctx, n)[0] == (StepRole(StepIndex(ctx, n)), ProcessStepId)
  {}

  /** A risk row's leaves and its locator. */
  method PlanRisk(ctx: Context, plan: EvidencePlan, index: nat, failureId: string, step: string) returns (ok: bool)
    requires Sound(ctx) && ctx.spec.documentType.Pfmea? && index < |Rows(ctx)| && ReadableRows(ctx, index)
    requires CellValue(ctx.conv, Rows(ctx)[index], FailureModeId) == Some(Str(failureId))
    requires CellValue(ctx.conv, Rows(ctx)[index], ProcessStepId) == Some(Str(step))
    requires |RowPairs(ctx, index)| > 0 && PlannedTo(ctx, plan, index, 1)
    modifies plan
    ensures plan.Valid()
    ensures ok <==> Readable(ctx, Rows(ctx)[index])
    ensures ok ==> Planned(plan, PlanFeeds(ctx, index + 1), Locators(ctx, index + 1))
  {
    hide Sound, PlanGroups, RowPairs, PlanFeeds, Locators, FeedsOf, ReadableRows, Readable, CellValue, PathOf;
    var row := Rows(ctx)[index];
    PfmeaPairs(ctx, index);
    var characteristicId := RequiredText(ctx, row, CharacteristicId);
    if characteristicId.None? { NoText(ctx, row, CharacteristicId); return false; }
    var special := RequiredBoolean(ctx, row, SpecialCharacteristic);
    if special.None? { NoText(ctx, row, SpecialCharacteristic); return false; }
    RiskReadable(ctx, row);
    AddRow(ctx, plan, index, 1,
           [RiskRole(index, FailureModeId), RiskRole(index, ProcessStepId), RiskRole(index, CharacteristicId), RiskRole(index, SpecialCharacteristic)],
           [(FailureModeId, Str(failureId)), (ProcessStepId, Str(step)), (CharacteristicId, Str(characteristicId.value)), (SpecialCharacteristic, special.value)]);
    if HasEffect(ctx) {
      var effect := RequiredText(ctx, row, Effect);
      if effect.None? { NoText(ctx, row, Effect); return false; }
      EffectValue(ctx, row);
      AddRow(ctx, plan, index, 5, [RiskRole(index, Effect)], [(Effect, Str(effect.value))]);
    }
    ReadableBody(ctx, row);
    var anchor := CellAt(row, FailureModeId);
    AddLocator(ctx, plan, index, DerivedLocator(PathOf(RiskLocator(index)), Str(anchor.locator), SourceAt(ctx, row, FailureModeId),
                                                PathOf(RiskRole(index, FailureModeId)), LOCATOR_CONTRACT));
    EndOfRow(ctx, index);
    return true;
  }

  method RequiredBoolean(ctx: Context, row: MappedRow, c: Canonical) returns (r: Option<Json>)
    requires c.SpecialCharacteristic?
    ensures r == CellValue(ctx.conv, row, c)
  {
    r := if HasText(ctx.conv, row, c) then ParseBoolean(ctx.conv, row.cells[c].text) else None;
  }

  // ---------- Characteristic documents ----------

  lemma CharacteristicRolesAre(ctx: Context, n: nat, k: nat)
    requires HasCharacteristics(ctx.spec.documentType) && n < |Rows(ctx)| && 0 < k < |RowPairs(ctx, n)|
    ensures RowPairs(ctx, n)[k] == (CharRole(n, RowPairs(ctx, n)[k].1), RowPairs(ctx, n)[k].1)
  {
    OwnTarget(ctx, n, k);
  }

  /** The leaves a characteristic row feeds after its step slot, one by one. */
  lemma CharacteristicRowPairs(ctx: Context, n: nat)
    requires HasCharacteristics(ctx.spec.documentType) && n < |Rows(ctx)|
    ensures var pairs, base := RowPairs(ctx, n), (if WithControls(ctx) then 4 else 3);
      && |pairs| == (if WithControls(ctx) then 11 else 7)
      && pairs[1] == (CharRole(n, CharacteristicId), CharacteristicId) && pairs[2] == (CharRole(n, ProcessStepId), ProcessStepId)
      && (WithControls(ctx) ==> pairs[3] == (CharRole(n, ControlId), ControlId))
      && pairs[base] == (CharRole(n, Target), Target) && pairs[base + 1] == (CharRole(n, Minimum), Minimum)
      && pairs[base + 2] == (CharRole(n, Maximum), Maximum) && pairs[base + 3] == (CharRole(n, Unit), Unit)
      && (WithControls(ctx) ==>
        && pairs[8] == (CharRole(n, ControlMethod), ControlMethod) && pairs[9] == (CharRole(n, Frequency), Frequency)
        && pairs[10] == (CharRole(n, ReactionPlan), ReactionPlan))
  {
    CharacteristicPositions(ctx, n);
    hide RowPairs, WithControls;
    forall k | 0 < k < |RowPairs(ctx, n)| ensures RowPairs(ctx, n)[k].0 == CharRole(n, RowPairs(ctx, n)[k].1) {
      CharacteristicRolesAre(ctx, n, k);
    }
  }

  /** The row's identifiers: characteristic, step and, where the document has them, control. */
  method PlanIdentity(ctx: Context, plan: EvidencePlan, n: nat) returns (r: Option<(string, string)>)
    requires Sound(ctx) && HasCharacteristics(ctx.spec.documentType) && n < |Rows(ctx)| && ReadableRows(ctx, n)
    requires |RowPairs(ctx, n)| >= 4 && PlannedTo(ctx, plan, n, 1)
    modifies plan
    ensures plan.Valid()
    ensures var row := Rows(ctx)[n];
      r.Some? <==> Read(ctx, row, CharacteristicId) && Read(ctx, row, ProcessStepId) && (WithControls(ctx) ==> Read(ctx, row, ControlId))
    ensures r.Some? ==> r.value == (TextOf(ctx, Rows(ctx)[n], ProcessStepId), TextOf(ctx, Rows(ctx)[n], CharacteristicId))
    ensures r.Some? ==> PlannedTo(ctx, plan, n, if WithControls(ctx) then 4 else 3)
  {
    hide Sound, PlanGroups, RowPairs, PlanFeeds, Locators, FeedsOf, ReadableRows, CellValue, PathOf, TextOf, WithControls;
    var row := Rows(ctx)[n];
    CharacteristicRowPairs(ctx, n);
    var characteristicId := RequiredText(ctx, row, CharacteristicId);
    if characteristicId.None? { return None; }
    var step := RequiredText(ctx, row, ProcessStepId);
    if step.None? { return None; }
    AddRow(ctx, plan, n, 1, [CharRole(n, CharacteristicId), CharRole(n, ProcessStepId)],
           [(CharacteristicId, Str(characteristicId.value)), (ProcessStepId, Str(step.value))]);
    if WithControls(ctx) {
      var controlId := RequiredText(ctx, row, ControlId);
      if controlId.None? { return None; }
      AddRow(ctx, plan, n, 3, [CharRole(n, ControlId)], [(ControlId, Str(controlId.value))]);
    }
    return Some((step.value, characteristicId.value));
  }

  /** `_plan_characteristic_row` after the step slot: the row's own leaves and its locator. */
  method PlanCharacteristicRow(ctx: Context, plan: EvidencePlan, n: nat) returns (r: Option<(string, string)>)
    requires Sound(ctx) && HasCharacteristics(ctx.spec.documentType) && n < |Rows(ctx)| && ReadableRows(ctx, n)
    requires |RowPairs(ctx, n)| > 0 && PlannedTo(ctx, plan, n, 1)
    modifies plan
    ensures plan.Valid()
    ensures r.Some? <==> BodyReadable(ctx, Rows(ctx)[n])
    ensures r.Some? ==> r.value == (TextOf(ctx, Rows(ctx)[n], ProcessStepId), TextOf(ctx, Rows(ctx)[n], CharacteristicId))
    ensures r.Some? ==>
      Planned(plan, PlanFeeds(ctx, n) + FeedsOf(ctx, Rows(ctx)[n], RowPairs(ctx, n)), Locators(ctx, n + 1))
  {
    hide Sound, PlanGroups, RowPairs, PlanFeeds, Locators, FeedsOf, ReadableRows, BodyReadable, CellValue, PathOf, TextOf, LimitsRead, ControlsRead,
      WithControls;
    var row := Rows(ctx)[n];
    CharacteristicReadable(ctx, row);
    CharacteristicRowPairs(ctx, n);
    r := PlanIdentity(ctx, plan, n);
    if r.None? { return None; }
    var limits := PlanSpecification(ctx, plan, n, if WithControls(ctx) then 4 else 3);
    if !limits { return None; }
    if WithControls(ctx) {
      var controls := PlanControls(ctx, plan, n);
      if !controls { return None; }
    }
    var anchor := CellAt(row, CharacteristicId);
    AddLocator(ctx, plan, n, DerivedLocator(PathOf(CharLocator(n)), Str(anchor.locator), SourceAt(ctx, row, CharacteristicId),
                                            PathOf(CharRole(n, CharacteristicId)), LOCATOR_CONTRACT));
  }

  method PlanSpecification(ctx: Context, plan: EvidencePlan, n: nat, base: nat) returns (ok: bool)
    requires Sound(ctx) && HasCharacteristics(ctx.spec.documentType) && n < |Rows(ctx)| && ReadableRows(ctx, n)
    requires base == (if WithControls(ctx) then 4 else 3) && base + 4 <= |RowPairs(ctx, n)| && PlannedTo(ctx, plan, n, base)
    modifies plan
    ensures plan.Valid()
    ensures ok <==> LimitsRead(ctx, Rows(ctx)[n])
    ensures ok ==> PlannedTo(ctx, plan, n, base + 4)
  {
    hide Sound, PlanGroups, RowPairs, PlanFeeds, Locators, FeedsOf, ReadableRows, CellValue, PathOf;
    var row := Rows(ctx)[n];
    CharacteristicRowPairs(ctx, n);
    var target := RequiredNumber(ctx, row, Target);
    if target.None? { return false; }
    var minimum := RequiredNumber(ctx, row, Minimum);
    if minimum.None? { return false; }
    var maximum := RequiredNumber(ctx, row, Maximum);
    if maximum.None? { return false; }
    AddRow(ctx, plan, n, base, [CharRole(n, Target), CharRole(n, Minimum), CharRole(n, Maximum)],
           [(Target, target.value), (Minimum, minimum.value), (Maximum, maximum.value)]);
    var unit := RequiredText(ctx, row, Unit);
    if unit.None? { return false; }
    AddRow(ctx, plan, n, base + 3, [CharRole(n, Unit)], [(Unit, Str(unit.value))]);
    return true;
  }

  method PlanControls(ctx: Context, plan: EvidencePlan, n: nat) returns (ok: bool)
    requires Sound(ctx) && WithControls(ctx) && n < |Rows(ctx)| && ReadableRows(ctx, n)
    requires |RowPairs(ctx, n)| == 11 && PlannedTo(ctx, plan, n, 8)
    modifies plan
    ensures plan.Valid()
    ensures ok <==> ControlsRead(ctx, Rows(ctx)[n])
    ensures ok ==> PlannedTo(ctx, plan, n, 11)
  {
    hide Sound, PlanGroups, RowPairs, PlanFeeds, Locators, FeedsOf, ReadableRows, CellValue, PathOf;
    var row := Rows(ctx)[n];
    CharacteristicRowPairs(ctx, n);
    var controlMethod := RequiredText(ctx, row, ControlMethod);
    if controlMethod.None? { return false; }
    var frequency := RequiredText(ctx, row, Frequency);
    if frequency.None? { return false; }
    var reactionPlan := RequiredText(ctx, row, ReactionPlan);
    if reactionPlan.None? { return false; }
    AddRow(ctx, plan, n, 8, [CharRole(n, ControlMethod), CharRole(n, Frequency), CharRole(n, ReactionPlan)],
           [(ControlMethod, Str(controlMethod.value)), (Frequency, Str(frequency.value)), (ReactionPlan, Str(reactionPlan.value))]);
    return true;
  }

  // ---------- Inspection references, taken with their row ----------

  /** The cells feeding one reference leaf: that column of every row so far. */
  lemma {:induction false} RefGroup(ctx: Context, n: nat, k: nat)
    requires Sound(ctx) && n <= |Rows(ctx)| && k < |RefPairs(ctx)|
    ensures |Contributors(RefFeeds(ctx, n), PathOf(RefPairs(ctx)[k].0))| == n
    ensures forall i :: 0 <= i < n ==>
      Contributors(RefFeeds(ctx, n), PathOf(RefPairs(ctx)[k].0))[i] == FeedAt(ctx, Rows(ctx)[i], RefPairs(ctx)[k])
  {
    hide RefPairs, FeedsOf, Contributors, Sound, PathOf, FeedAt;
    NothingFed(PathOf(RefPairs(ctx)[k].0));
    if n > 0 {
      RefGroup(ctx, n - 1, k);
      RefRoles(ctx);
      OneContributor(ctx, Rows(ctx)[n - 1], RefPairs(ctx), k);
      ContributorsConcat(RefFeeds(ctx, n - 1), FeedsOf(ctx, Rows(ctx)[n - 1], RefPairs(ctx)), PathOf(RefPairs(ctx)[k].0));
    }
  }

  /** Contributions of row `n`, references included up to `k`. */
  ghost function RowRefFeeds(ctx: Context, n: nat, k: nat): seq<Feed>
    requires n < |Rows(ctx)| && k <= |RefPairs(ctx)|
  {
    PlanFeeds(ctx, n) + FeedsOf(ctx, Rows(ctx)[n], RowPairs(ctx, n)) + FeedsOf(ctx, Rows(ctx)[n], RefPairs(ctx)[..k])
  }

  lemma RefGroupInPlan(ctx: Context, n: nat, k: nat)
    requires Sound(ctx) && n < |Rows(ctx)| && k < |RefPairs(ctx)|
    ensures var group := Contributors(RowRefFeeds(ctx, n, k), PathOf(RefPairs(ctx)[k].0));
      && |group| == n
      && forall i :: 0 <= i < n ==> group[i] == FeedAt(ctx, Rows(ctx)[i], RefPairs(ctx)[k])
  {
    hide FeedsOf, Contributors, Sound, PathOf, FeedAt, PlanFeeds, RowFeeds, RefFeeds, RowPairs, RefPairs;
    var (t, row) := (PathOf(RefPairs(ctx)[k].0), Rows(ctx)[n]);
    RefRoles(ctx);
    var role := RefPairs(ctx)[k].0;
    assert role == RefRole(role.target, role.leaf);
    SameGroups(ctx, n, t);
    NoRowFeeds(ctx, n, role.target, role.leaf);
    RefGroup(ctx, n, k);
    NoReferenceInRow(ctx, n, role.target, role.leaf);
    EarlierRefsDiffer(ctx, k);
    NoContributor(ctx, row, RefPairs(ctx)[..k], t);
    ContributorsConcat(PlanFeeds(ctx, n), FeedsOf(ctx, row, RowPairs(ctx, n)), t);
    ContributorsConcat(PlanFeeds(ctx, n) + FeedsOf(ctx, row, RowPairs(ctx, n)), FeedsOf(ctx, row, RefPairs(ctx)[..k]), t);
  }

  lemma EarlierRefsDiffer(ctx: Context, k: nat)
    requires k < |RefPairs(ctx)|
    ensures forall j :: 0 <= j < |RefPairs(ctx)[..k]| ==> PathOf(RefPairs(ctx)[..k][j].0) != PathOf(RefPairs(ctx)[k].0)
  {
    forall j: nat | j < k ensures PathOf(RefPairs(ctx)[j].0) != PathOf(RefPairs(ctx)[k].0) {
      if PathOf(RefPairs(ctx)[j].0) == PathOf(RefPairs(ctx)[k].0) {
        RefDistinct(ctx, j, k);
      }
    }
  }

  /** The plan accepts a reference exactly when it reads like row 0's. */
  lemma RefAccepted(ctx: Context, n: nat, k: nat)
    requires Sound(ctx) && ctx.spec.documentType.InspectionRecord? && n < |Rows(ctx)| && k < |RefPairs(ctx)| == 4
    requires ReferencesAgree(ctx, n) && Read(ctx, Rows(ctx)[n], RefPairs(ctx)[k].1)
    ensures PlanAccepts(RowRefFeeds(ctx, n, k), FeedAt(ctx, Rows(ctx)[n], RefPairs(ctx)[k])) <==>
      TextOf(ctx, Rows(ctx)[0], RefPairs(ctx)[k].1) == TextOf(ctx, Rows(ctx)[n], RefPairs(ctx)[k].1)
  {
    hide Contributors, PathOf, RowRefFeeds, RefPairs, CellValue, TextOf, SourceAt, ValueOf, Sound;
    var (p, f) := (RefPairs(ctx)[k], FeedAt(ctx, Rows(ctx)[n], RefPairs(ctx)[k]));
    var group := Contributors(RowRefFeeds(ctx, n, k), PathOf(p.0));
    RefGroupInPlan(ctx, n, k);
    RefValue(ctx, Rows(ctx)[n], k);
    if n > 0 {
      AgreeAt(ctx, n, 0, k);
      RefValue(ctx, Rows(ctx)[0], k);
    }
    forall i | 0 <= i < n ensures SourcesOf(group)[i] != f.source {
      AgreeAt(ctx, n, i, k);
      RefValue(ctx, Rows(ctx)[i], k);
      SourcesApart(ctx, i, n, p.1, p.1);
    }
  }

  /** The four references of row `n`. */
  method PlanReferences(ctx: Context, plan: EvidencePlan, n: nat) returns (ok: bool)
    requires Sound(ctx) && ctx.spec.documentType.InspectionRecord? && n < |Rows(ctx)| && ReferencesAgree(ctx, n)
    requires Planned(plan, PlanFeeds(ctx, n) + FeedsOf(ctx, Rows(ctx)[n], RowPairs(ctx, n)), Locators(ctx, n + 1))
    modifies plan
    ensures plan.Valid()
    ensures ok <==> ReferencesAgree(ctx, n + 1)
    ensures ok ==> Planned(plan, PlanFeeds(ctx, n + 1), Locators(ctx, n + 1))
  {
    hide Sound, PlanGroups, RowPairs, PlanFeeds, Locators, FeedsOf, CellValue, PathOf, TextOf, RefColumns, RefPairs, ReferencesAgree, PlanAccepts, RowRefFeeds;
    RefPairsAll(ctx);
    var row := Rows(ctx)[n];
    var k := 0;
    RowRefStart(ctx, n);
    AgreeNext(ctx, n);
    while k < 4
      invariant 0 <= k <= 4
      invariant forall j :: 0 <= j < k ==> RefAgrees(ctx, n, j)
      invariant Planned(plan, RowRefFeeds(ctx, n, k), Locators(ctx, n + 1))
    {
      var (role, c) := RefColumns()[k];
      var value := RequiredText(ctx, row, c);
      if value.None? {
        assert !RefAgrees(ctx, n, k);
        return false;
      }
      RefAccepted(ctx, n, k);
      RefValue(ctx, row, k);
      RowRefNext(ctx, n, k);
      var accepted := AddFeed(plan, RowRefFeeds(ctx, n, k), Locators(ctx, n + 1), Feed(PathOf(role), Str(value.value), SourceAt(ctx, row, c)));
      if !accepted {
        assert !RefAgrees(ctx, n, k);
        return false;
      }
      k := k + 1;
    }
    RowRefEnd(ctx, n);
    return true;
  }

  lemma RowRefStart(ctx: Context, n: nat)
    requires n < |Rows(ctx)|
    ensures RowRefFeeds(ctx, n, 0) == PlanFeeds(ctx, n) + FeedsOf(ctx, Rows(ctx)[n], RowPairs(ctx, n))
  {
    hide RowPairs, PlanFeeds;
    assert FeedsOf(ctx, Rows(ctx)[n], RefPairs(ctx)[..0]) == [];
  }

  lemma RowRefNext(ctx: Context, n: nat, k: nat)
    requires n < |Rows(ctx)| && k < |RefPairs(ctx)|
    ensures RowRefFeeds(ctx, n, k + 1) == RowRefFeeds(ctx, n, k) + [FeedAt(ctx, Rows(ctx)[n], RefPairs(ctx)[k])]
  {
    hide RowPairs, PlanFeeds, RefPairs, FeedAt;
    assert RefPairs(ctx)[..k + 1] == RefPairs(ctx)[..k] + [RefPairs(ctx)[k]];
    FeedsOfStep(ctx, PlanFeeds(ctx, n) + FeedsOf(ctx, Rows(ctx)[n], RowPairs(ctx, n)), Rows(ctx)[n], RefPairs(ctx)[..k], RefPairs(ctx)[k]);
  }

  lemma RowRefEnd(ctx: Context, n: nat)
    requires n < |Rows(ctx)| && ctx.spec.documentType.InspectionRecord?
    ensures |RefPairs(ctx)| == 4 && RowRefFeeds(ctx, n, 4) == PlanFeeds(ctx, n + 1)
  {
    hide RowPairs, FeedsOf;
    assert RefPairs(ctx)[..4] == RefPairs(ctx);
  }

  // ---------- All rows of a characteristic document ----------

  /** A row's step slot, taken at its first row, then the row's own leaves. */
  method PlanStepAndRow(ctx: Context, plan: EvidencePlan, n: nat, steps: seq<string>, indexes: map<string, nat>)
    returns (r: Option<(string, string)>, steps': seq<string>, indexes': map<string, nat>)
    requires Sound(ctx) && HasCharacteristics(ctx.spec.documentType) && n < |Rows(ctx)| && ReadableRows(ctx, n)
    requires steps == StepsOf(ctx, n) && Indexed(steps, indexes)
    requires plan.Valid() && Planned(plan, PlanFeeds(ctx, n), Locators(ctx, n))
    modifies plan
    ensures plan.Valid()
    ensures r.Some? <==> BodyReadable(ctx, Rows(ctx)[n])
    ensures r.Some? ==> r.value == (TextOf(ctx, Rows(ctx)[n], ProcessStepId), TextOf(ctx, Rows(ctx)[n], CharacteristicId))
    ensures r.Some? ==> steps' == StepsOf(ctx, n + 1) && Indexed(steps', indexes')
    ensures r.Some? ==> Planned(plan, PlanFeeds(ctx, n) + FeedsOf(ctx, Rows(ctx)[n], RowPairs(ctx, n)), Locators(ctx, n + 1))
  {
    hide Sound, PlanGroups, StepsOf, StepIndex, RowPairs, PlanFeeds, Locators, FeedsOf, ReadableRows, BodyReadable, TextOf, LimitsRead, ControlsRead,
      CellValue;
    CharacteristicReadable(ctx, Rows(ctx)[n]);
    StartOfRow(ctx, n);
    StepFirst(ctx, n);
    steps', indexes' := steps, indexes;
    var step := RequiredText(ctx, Rows(ctx)[n], ProcessStepId);
    if step.None? { return None, steps', indexes'; }
    var stepIndex;
    stepIndex, steps', indexes' := TakeStep(ctx, n, steps, indexes);
    AddRow(ctx, plan, n, 0, [StepRole(stepIndex)], [(ProcessStepId, Str(step.value))]);
    r := PlanCharacteristicRow(ctx, plan, n);
  }

  method PlanCharacteristics(ctx: Context, plan: EvidencePlan) returns (ok: bool)
    requires Sound(ctx) && HasCharacteristics(ctx.spec.documentType)
    requires plan.Valid() && plan.contributors == map[] && plan.derived == map[]
    modifies plan
    ensures plan.Valid()
    ensures ok <==> Mappable(ctx)
    ensures ok ==> Planned(plan, PlanFeeds(ctx, |Rows(ctx)|), Locators(ctx, |Rows(ctx)|))
  {
    hide Sound, PlanGroups, StepsOf, StepIndex, MappablePrefix, Mappable, RowPairs, PlanFeeds, Locators, FeedsOf, ReadableRows,
      BodyReadable, BodyPrefix, ReferencesAgree, RelationsOf, TextsOf, TextOf, RelationOf, LimitsRead, ControlsRead, CellValue;
    StartOfPlan(ctx);
    StartOfRows(ctx);
    StartOfBody(ctx);
    SetsStart(ctx);
    CharacteristicMappable(ctx);
    var stepIndexes: map<string, nat> := map[];
    var steps: seq<string> := [];
    var relationshipIds: set<(string, string)> := {};
    var controlIds: set<string> := {};
    var index := 0;
    while index < |Rows(ctx)|
      invariant 0 <= index <= |Rows(ctx)|
      invariant BodyPrefix(ctx, index) && PrefixAgrees(ctx, index) && ReadableRows(ctx, index)
      invariant steps == StepsOf(ctx, index) && Indexed(steps, stepIndexes)
      invariant relationshipIds == RelationsOf(ctx, index)
      invariant WithControls(ctx) ==> controlIds == TextsOf(ctx, index, ControlId)
      invariant Planned(plan, PlanFeeds(ctx, index), Locators(ctx, index))
    {
      CharacteristicExtends(ctx, index);
      CharacteristicReadable(ctx, Rows(ctx)[index]);
      MappablePrefixes(ctx, index);
      SetsGrow(ctx, index);
      var row := Rows(ctx)[index];
      var planned;
      planned, steps, stepIndexes := PlanStepAndRow(ctx, plan, index, steps, stepIndexes);
      if planned.None? { return false; }
      var relation := (ctx.conv.norm(planned.value.0), ctx.conv.norm(planned.value.1));
      RelationIs(ctx, row);
      if relation in relationshipIds { return false; }
      relationshipIds := relationshipIds + {relation};
      if WithControls(ctx) {
        ControlIdRead(ctx, row);
        var controlId := RequiredText(ctx, row, ControlId);
        if controlId.None? || controlId.value in controlIds { return false; }
        controlIds := controlIds + {controlId.value};
      }
      if ctx.spec.documentType.InspectionRecord? {
        var agreed := PlanReferences(ctx, plan, index);
        if !agreed { return false; }
      } else {
        EndOfRow(ctx, index);
      }
      RowsRead(ctx, index);
      index := index + 1;
    }
    return true;
  }

  ghost predicate PrefixAgrees(ctx: Context, n: nat)
    requires n <= |Rows(ctx)|
  {
    ctx.spec.documentType.InspectionRecord? ==> ReferencesAgree(ctx, n)
  }

  lemma CharacteristicMappable(ctx: Context)
    requires Sound(ctx) && HasCharacteristics(ctx.spec.documentType)
    ensures Mappable(ctx) <==> BodyPrefix(ctx, |Rows(ctx)|) && PrefixAgrees(ctx, |Rows(ctx)|)
    ensures PrefixAgrees(ctx, 0) && ReadableRows(ctx, 0)
  {
    if ctx.spec.documentType.InspectionRecord? {
      InspectionMappable(ctx);
    } else {
      BodyIsAll(ctx);
    }
  }

  lemma MappablePrefixes(ctx: Context, n: nat)
    requires n < |Rows(ctx)|
    ensures BodyPrefix(ctx, |Rows(ctx)|) ==> BodyPrefix(ctx, n + 1)
    ensures PrefixAgrees(ctx, |Rows(ctx)|) ==> PrefixAgrees(ctx, n + 1)
  {
    hide BodyReadable, RowsApart, RefsRead, SameReferences;
  }

  lemma RelationIs(ctx: Context, row: MappedRow)
    ensures (ctx.conv.norm(TextOf(ctx, row, ProcessStepId)), ctx.conv.norm(TextOf(ctx, row, CharacteristicId))) == RelationOf(ctx, row)
  {}

  lemma ControlIdRead(ctx: Context, row: MappedRow)
    requires Sound(ctx) && WithControls(ctx) && BodyReadable(ctx, row)
    ensures CellValue(ctx.conv, row, ControlId).Some?
  {
    CharacteristicReadable(ctx, row);
  }

  lemma RowsRead(ctx: Context, n: nat)
    requires Sound(ctx) && HasCharacteristics(ctx.spec.documentType) && n < |Rows(ctx)|
    requires ReadableRows(ctx, n) && BodyReadable(ctx, Rows(ctx)[n]) && PrefixAgrees(ctx, n + 1)
    ensures ReadableRows(ctx, n + 1)
  {
    if ctx.spec.documentType.InspectionRecord? {
      ReadableParts(ctx, Rows(ctx)[n]);
    } else {
      NoRefColumns(ctx);
    }
    hide CellValue, ColumnKeys, Sound, IsRefColumn;
  }
}

/** The closure check accepts exactly the provenance of the two derivations, up to Python equality of values. */
module ClosureTheorem {
  import opened Json
  import opened Ordering
  import opened Provenance
  import opened EvidencePlanning
  import opened Tables
  import opened Roles
  import opened Feeds
  import opened Builder
  import opened PlanBuilder
  import opened Agreement
  import opened Closure
  import opened Documents
  import opened HonestClosure

  // ---------- Where expected entries come from ----------

  predicate PairOfRow(ctx: Context, i: nat, p: Pair)
    requires i < |Rows(ctx)|
  {
    p in RowPairs(ctx, i) || p in RefPairs(ctx)
  }

  lemma {:induction false} PlanFeedFrom(ctx: Context, n: nat, f: Feed) returns (i: nat, p: Pair)
    requires n <= |Rows(ctx)| && f in PlanFeeds(ctx, n)
    ensures i < n && PairOfRow(ctx, i, p) && f == FeedAt(ctx, Rows(ctx)[i], p)
  {
    hide RowPairs, RefPairs, FeedAt;
    var row := Rows(ctx)[n - 1];
    var own, refs := FeedsOf(ctx, row, RowPairs(ctx, n - 1)), FeedsOf(ctx, row, RefPairs(ctx));
    if f in PlanFeeds(ctx, n - 1) {
      i, p := PlanFeedFrom(ctx, n - 1, f);
    } else if f in own {
      var k :| 0 <= k < |own| && own[k] == f;
      i, p := n - 1, RowPairs(ctx, n - 1)[k];
    } else {
      assert f in refs;
      var k :| 0 <= k < |refs| && refs[k] == f;
      i, p := n - 1, RefPairs(ctx)[k];
    }
  }

  lemma OfRowIsNoLocator(ctx: Context, i: nat, p: Pair)
    requires i < |Rows(ctx)| && OfRow(ctx, i, p)
    ensures p.1 in ColumnKeys(ctx.spec) && !p.0.RiskLocator? && !p.0.CharLocator?
  {}

  lemma PairListed(ctx: Context, i: nat, p: Pair)
    requires Sound(ctx) && i < |Rows(ctx)| && PairOfRow(ctx, i, p)
    ensures p.1 in ColumnKeys(ctx.spec) && !p.0.RiskLocator? && !p.0.CharLocator?
  {
    RowRoles(ctx, i);
    RefRoles(ctx);
    hide RowPairs, RefPairs, Sound, ColumnKeys, OfRow, Rows, OwnPair, DistinctRoles;
    if p in RowPairs(ctx, i) {
      var k :| 0 <= k < |RowPairs(ctx, i)| && RowPairs(ctx, i)[k] == p;
      OfRowIsNoLocator(ctx, i, p);
    } else {
      var k :| 0 <= k < |RefPairs(ctx)| && RefPairs(ctx)[k] == p;
    }
  }

  lemma PairColumn(ctx: Context, i: nat, p: Pair)
    requires Sound(ctx) && Mappable(ctx) && i < |Rows(ctx)| && PairOfRow(ctx, i, p)
    ensures p.1 in ColumnKeys(ctx.spec) && p.1 in Rows(ctx)[i].cells && CellValue(ctx.conv, Rows(ctx)[i], p.1).Some?
    ensures !p.0.RiskLocator? && !p.0.CharLocator?
  {
    PairListed(ctx, i, p);
    RowRead(ctx, i);
    hide RowPairs, RefPairs, Sound, Mappable, ColumnKeys, CellValue, PairOfRow;
    CellPresent(ctx, Rows(ctx)[i], p.1);
  }

  /** The `k`-th cell of an expected entry. */
  lemma SourceFrom(ctx: Context, e: Entry, k: nat) returns (i: nat, p: Pair)
    requires Sound(ctx) && Mappable(ctx) && CellEntry(ctx, e) && k < |EntrySources(e)|
    ensures i < |Rows(ctx)| && PairOfRow(ctx, i, p) && e.target == PathOf(p.0)
    ensures EntrySources(e)[k] == SourceAt(ctx, Rows(ctx)[i], p.1)
    ensures k == 0 ==> e.value == ValueOf(ctx, Rows(ctx)[i], p.1)
  {
    ExpectedSources(ctx, e);
    var feeds := PlanFeeds(ctx, |Rows(ctx)|);
    hide Sound, Mappable, PlanFeeds, Contributors, PathOf, EntrySources, SourceAt, GroupEntry, Finalized;
    ContributorsMembers(feeds, e.target);
    var f := Contributors(feeds, e.target)[k];
    assert f in Contributors(feeds, e.target);
    i, p := PlanFeedFrom(ctx, |Rows(ctx)|, f);
  }

  lemma HasSource(ctx: Context, e: Entry)
    requires Sound(ctx) && Mappable(ctx) && CellEntry(ctx, e)
    ensures |EntrySources(e)| > 0 && IsCellEntry(e)
  {
    ExpectedSources(ctx, e);
  }

  // ---------- The value each leaf holds ----------

  lemma RiskValue(ctx: Context, row: MappedRow, c: Canonical)
    requires CellValue(ctx.conv, row, c).Some?
    requires c.FailureModeId? || c.ProcessStepId? || c.CharacteristicId? || c.SpecialCharacteristic? || (c.Effect? && HasEffect(ctx))
    ensures RiskLeaf(RiskOf(ctx, row), c) == Some(ValueOf(ctx, row, c))
  {
    hide ColumnKeys;
  }

  lemma CharacteristicValue(ctx: Context, row: MappedRow, c: Canonical)
    requires CellValue(ctx.conv, row, c).Some? && c in CharacteristicColumns(ctx.spec.documentType.ControlPlan?)
    ensures CharacteristicLeaf(CharacteristicOf(ctx, row), c) == Some(ValueOf(ctx, row, c))
  {
    CharacteristicColumnsDistinct(ctx.spec.documentType.ControlPlan?);
  }

  lemma BodyPairKind(ctx: Context, i: nat, p: Pair)
    requires p in BodyPairs(ctx, i)
    ensures ctx.spec.documentType.Pfmea? ==>
      && p.0 == RiskRole(i, p.1)
      && (p.1.FailureModeId? || p.1.ProcessStepId? || p.1.CharacteristicId? || p.1.SpecialCharacteristic? || (p.1.Effect? && HasEffect(ctx)))
    ensures !ctx.spec.documentType.Pfmea? ==>
      HasCharacteristics(ctx.spec.documentType) && p.0 == CharRole(i, p.1) && p.1 in CharacteristicColumns(ctx.spec.documentType.ControlPlan?)
  {
    hide ColumnKeys, CharacteristicColumns;
  }

  lemma StepLeafValue(ctx: Context, registry: map<string, Identity>, i: nat)
    requires Sound(ctx) && Mappable(ctx) && i < |Rows(ctx)|
    ensures LeafValue(FieldsOf(ctx), registry, StepRole(StepIndex(ctx, i))) == Some(ValueOf(ctx, Rows(ctx)[i], ProcessStepId))
  {
    StepLeads(ctx, i);
    FieldsShape(ctx);
    SlotHoldsStep(ctx, i, |Rows(ctx)|);
    StepValue(ctx, Rows(ctx)[i]);
    hide Sound, Mappable, CellValue, StepIndex, StepsOf, ValueOf, FieldsOf, RowPairs, TextOf;
    assert RowPairs(ctx, i)[0] in RowPairs(ctx, i);
    PairColumn(ctx, i, StepPair(ctx, i));
  }

  lemma OwnLeafValue(ctx: Context, registry: map<string, Identity>, i: nat, p: Pair)
    requires i < |Rows(ctx)| && CellValue(ctx.conv, Rows(ctx)[i], p.1).Some? && p in BodyPairs(ctx, i)
    ensures LeafValue(FieldsOf(ctx), registry, p.0) == Some(ValueOf(ctx, Rows(ctx)[i], p.1))
  {
    FieldsShape(ctx);
    BodyPairKind(ctx, i, p);
    hide CellValue, StepsOf, RiskLeaf, CharacteristicLeaf, RiskOf, CharacteristicOf, FieldsOf, BodyPairs, ValueOf;
    if ctx.spec.documentType.Pfmea? {
      RiskValue(ctx, Rows(ctx)[i], p.1);
    } else {
      CharacteristicValue(ctx, Rows(ctx)[i], p.1);
    }
  }

  /** A row pair's leaf holds the value read from its cell. */
  lemma RowLeafValue(ctx: Context, registry: map<string, Identity>, i: nat, p: Pair)
    requires Sound(ctx) && Mappable(ctx) && i < |Rows(ctx)| && p in RowPairs(ctx, i)
    ensures LeafValue(FieldsOf(ctx), registry, p.0) == Some(ValueOf(ctx, Rows(ctx)[i], p.1))
  {
    PairColumn(ctx, i, p);
    StepLeafValue(ctx, registry, i);
    hide Sound, Mappable, CellValue, StepIndex, LeafValue, FieldsOf, BodyPairs, ValueOf;
    var k :| 0 <= k < |RowPairs(ctx, i)| && RowPairs(ctx, i)[k] == p;
    if k > 0 {
      assert p == BodyPairs(ctx, i)[k - 1];
      OwnLeafValue(ctx, registry, i, p);
    }
  }

  lemma StepValue(ctx: Context, row: MappedRow)
    ensures CellValue(ctx.conv, row, ProcessStepId).Some? ==> ValueOf(ctx, row, ProcessStepId) == Str(TextOf(ctx, row, ProcessStepId))
  {}

  lemma InspectionReferences(ctx: Context)
    requires Rows(ctx) != []
    ensures ctx.spec.documentType.InspectionRecord? ==>
      && HasReferences(FieldsOf(ctx))
      && FieldsOf(ctx).references[ToSop] == Reference(TextOf(ctx, Rows(ctx)[0], SopDocumentId), TextOf(ctx, Rows(ctx)[0], SopRevision))
      && FieldsOf(ctx).references[ToControlPlan] == Reference(TextOf(ctx, Rows(ctx)[0], ControlPlanDocumentId), TextOf(ctx, Rows(ctx)[0], ControlPlanRevision))
    ensures !ctx.spec.documentType.InspectionRecord? ==> !HasReferences(FieldsOf(ctx))
  {
    hide StepsOf, CharacteristicOf, RiskOf, TextOf;
  }

  lemma SameReferencesAt(ctx: Context, i: nat, k: nat)
    requires Mappable(ctx) && ctx.spec.documentType.InspectionRecord? && i < |Rows(ctx)| && k < 4
    ensures TextOf(ctx, Rows(ctx)[0], RefColumns()[k].1) == TextOf(ctx, Rows(ctx)[i], RefColumns()[k].1)
  {
    hide TextOf, RefColumns;
    assert SameReferences(ctx, Rows(ctx)[0], Rows(ctx)[i]);
  }

  lemma ReferenceText(ctx: Context, row: MappedRow, c: Canonical)
    requires IsRefColumn(c) && CellValue(ctx.conv, row, c).Some?
    ensures ValueOf(ctx, row, c) == Str(TextOf(ctx, row, c))
  {}

  lemma RefPairAt(ctx: Context, p: Pair) returns (k: nat)
    requires p in RefPairs(ctx)
    ensures k < 4 && RefColumns()[k] == p && ctx.spec.documentType.InspectionRecord?
    ensures p.0.RefRole? && IsRefColumn(p.1) && !IsOverlaid(p.0.leaf)
  {
    var j :| 0 <= j < |RefPairs(ctx)| && RefPairs(ctx)[j] == p;
    k := j;
  }

  lemma RefLeafText(ctx: Context, registry: map<string, Identity>, k: nat)
    requires Rows(ctx) != [] && k < 4 && ctx.spec.documentType.InspectionRecord? && Complete(FieldsOf(ctx), registry)
    ensures LeafValue(FieldsOf(ctx), registry, RefColumns()[k].0) == Some(Str(TextOf(ctx, Rows(ctx)[0], RefColumns()[k].1)))
  {
    InspectionReferences(ctx);
    hide FieldsOf, TextOf, Resolves;
    assert FieldsOf(ctx).references != map[];
  }

  /** A reference pair's leaf holds the text every row repeats. */
  lemma RefLeafValue(ctx: Context, registry: map<string, Identity>, i: nat, p: Pair)
    requires Sound(ctx) && Mappable(ctx) && i < |Rows(ctx)| && p in RefPairs(ctx) && Complete(FieldsOf(ctx), registry)
    ensures p.0.RefRole? && !IsOverlaid(p.0.leaf)
    ensures LeafValue(FieldsOf(ctx), registry, p.0) == Some(ValueOf(ctx, Rows(ctx)[i], p.1))
  {
    PairColumn(ctx, i, p);
    hide *;
    var k := RefPairAt(ctx, p);
    RefLeafText(ctx, registry, k);
    SameReferencesAt(ctx, i, k);
    ReferenceText(ctx, Rows(ctx)[i], p.1);
  }

  lemma ValueScalar(ctx: Context, row: MappedRow, c: Canonical)
    requires CellValue(ctx.conv, row, c).Some?
    ensures Scalar(Some(ValueOf(ctx, row, c)))
  {}

  /** The leaf an expected entry documents, and its value. */
  lemma EntryLeaf(ev: Evidence, ctx: Context, e: Entry) returns (role: Role)
    requires Honest(ev, ctx) && FullyExpected(ev, ctx, e)
    ensures e.target == PathOf(role) && LeafValue(FieldsOf(ctx), ev.registry, role) == Some(e.value) && Scalar(Some(e.value))
    ensures CellEntry(ctx, e) ==> IsCellEntry(e) && !role.RiskLocator? && !role.CharLocator? && (role.RefRole? ==> !IsOverlaid(role.leaf))
    ensures LocatorOf(ctx, e, |Rows(ctx)|) ==> e.DerivedLocator? && (role.RiskLocator? || role.CharLocator?)
    ensures ReferenceExpected(ev, ctx, e) ==> e.ReferenceIdentity? && role.RefRole? && IsOverlaid(role.leaf)
  {
    hide FieldsOf, Mappable, PathOf, LeafValue, CellEntry, LocatorEntry, AllParserCells, IsProvenance, FinalFields, Complete, Sound;
    if CellEntry(ctx, e) {
      role := CellLeaf(ctx, ev.registry, e);
      CellIsNothingElse(ev, ctx, e);
    } else if LocatorOf(ctx, e, |Rows(ctx)|) {
      var i: nat :| i < |Rows(ctx)| && e == LocatorEntry(ctx, i);
      role := LocatorRole(ctx, i);
      LocatorTarget(ctx, i);
      LocatorKind(ctx, i);
      LocatorLeaf(ctx, ev.registry, i);
      LocatorIsNoReference(ev, ctx, e);
    } else {
      var t, l :| IsOverlaid(l) && RefName(t) in ev.registry && e == ReferenceEntry(ev.registry, t, l);
      role := RefRole(t, l);
      OverlaidLeaf(ctx, ev.registry, t, l);
    }
  }

  lemma CellIsNothingElse(ev: Evidence, ctx: Context, e: Entry)
    requires Sound(ctx) && Mappable(ctx) && CellEntry(ctx, e)
    ensures !LocatorOf(ctx, e, |Rows(ctx)|) && !ReferenceExpected(ev, ctx, e)
  {
    HasSource(ctx, e);
    hide Sound, Mappable, CellEntry, PathOf;
  }

  lemma LocatorIsNoReference(ev: Evidence, ctx: Context, e: Entry)
    requires e.DerivedLocator?
    ensures !ReferenceExpected(ev, ctx, e)
  {}

  lemma CellLeaf(ctx: Context, registry: map<string, Identity>, e: Entry) returns (role: Role)
    requires Sound(ctx) && Mappable(ctx) && Complete(FieldsOf(ctx), registry) && CellEntry(ctx, e)
    ensures e.target == PathOf(role) && LeafValue(FieldsOf(ctx), registry, role) == Some(e.value) && Scalar(Some(e.value))
    ensures IsCellEntry(e) && !role.RiskLocator? && !role.CharLocator? && (role.RefRole? ==> !IsOverlaid(role.leaf))
  {
    hide FieldsOf, Mappable, PathOf, LeafValue, CellEntry, Sound, CellValue, ValueOf, RowPairs, RefPairs;
    HasSource(ctx, e);
    var i, p := SourceFrom(ctx, e, 0);
    PairColumn(ctx, i, p);
    ValueScalar(ctx, Rows(ctx)[i], p.1);
    role := p.0;
    if p in RowPairs(ctx, i) {
      RowLeafValue(ctx, registry, i, p);
      RowPairKind(ctx, i, p);
    } else {
      RefLeafValue(ctx, registry, i, p);
    }
  }

  lemma RowPairKind(ctx: Context, i: nat, p: Pair)
    requires Sound(ctx) && i < |Rows(ctx)| && p in RowPairs(ctx, i)
    ensures !p.0.RefRole?
  {
    RowRoles(ctx, i);
    hide RowPairs, StepIndex, Sound;
    var k :| 0 <= k < |RowPairs(ctx, i)| && RowPairs(ctx, i)[k] == p;
    assert OfRow(ctx, i, RowPairs(ctx, i)[k]);
  }

  lemma LocatorLeaf(ctx: Context, registry: map<string, Identity>, i: nat)
    requires i < |Rows(ctx)| && !ctx.spec.documentType.ProcessFlow?
    ensures LeafValue(FieldsOf(ctx), registry, LocatorRole(ctx, i)) == Some(LocatorEntry(ctx, i).value)
    ensures LocatorEntry(ctx, i).value.Str?
  {
    LocatorParts(ctx, Rows(ctx)[i]);
    hide RiskOf, CharacteristicOf, StepsOf, PathOf, ReferencesOf;
  }

  lemma OverlaidLeaf(ctx: Context, registry: map<string, Identity>, t: RefTarget, l: RefLeaf)
    requires Rows(ctx) != [] && ctx.spec.documentType.InspectionRecord? && Complete(FieldsOf(ctx), registry)
    requires IsOverlaid(l) && RefName(t) in registry
    ensures LeafValue(FieldsOf(ctx), registry, RefRole(t, l)) == Some(ReferenceEntry(registry, t, l).value)
    ensures ReferenceEntry(registry, t, l).target == PathOf(RefRole(t, l)) && ReferenceEntry(registry, t, l).value.Str?
  {
    InspectionReferences(ctx);
    hide FieldsOf, PathOf, Resolves;
    assert FieldsOf(ctx).references != map[];
  }

  // ---------- Every leaf has its entry ----------

  lemma LimitsAreScalar(ctx: Context)
    requires Sound(ctx) && Mappable(ctx)
    ensures LimitsScalar(FieldsOf(ctx))
  {
    FieldsShape(ctx);
    hide FieldsOf, Sound, Mappable, CharacteristicOf, Scalar;
    if HasCharacteristics(ctx.spec.documentType) {
      forall i | 0 <= i < |Rows(ctx)|
        ensures var c := CharacteristicOf(ctx, Rows(ctx)[i]); Scalar(Some(c.target)) && Scalar(Some(c.minimum)) && Scalar(Some(c.maximum))
      {
        LimitsOfRow(ctx, i);
      }
    }
  }

  lemma LimitsOfRow(ctx: Context, i: nat)
    requires Sound(ctx) && Mappable(ctx) && i < |Rows(ctx)| && HasCharacteristics(ctx.spec.documentType)
    ensures var c := CharacteristicOf(ctx, Rows(ctx)[i]); Scalar(Some(c.target)) && Scalar(Some(c.minimum)) && Scalar(Some(c.maximum))
  {
    RowRead(ctx, i);
    ColumnsAreRequired(ctx);
    var row := Rows(ctx)[i];
    assert Target in RequiredColumns(ctx.spec.documentType) && Minimum in RequiredColumns(ctx.spec.documentType) && Maximum in RequiredColumns(ctx.spec.documentType);
    assert CellValue(ctx.conv, row, Target).Some? && CellValue(ctx.conv, row, Minimum).Some? && CellValue(ctx.conv, row, Maximum).Some?;
    ValueScalar(ctx, row, Target);
    ValueScalar(ctx, row, Minimum);
    ValueScalar(ctx, row, Maximum);
  }

  /** A fed leaf has its entry. */
  lemma PairEntry(ctx: Context, i: nat, p: Pair) returns (e: Entry)
    requires Sound(ctx) && Mappable(ctx) && i < |Rows(ctx)| && PairOfRow(ctx, i, p)
    ensures Expected(ctx, e) && e.target == PathOf(p.0)
  {
    hide Sound, Mappable, RowPairs, RefPairs, PlanFeeds, Expected, PathOf;
    FedInPlan(ctx, |Rows(ctx)|, i, p);
    var k;
    e, k := FedExpected(ctx, FeedAt(ctx, Rows(ctx)[i], p));
  }

  lemma StepSlot(ctx: Context, k: nat) returns (i: nat)
    requires k < |StepsOf(ctx, |Rows(ctx)|)|
    ensures i < |Rows(ctx)| && StepIndex(ctx, i) == k
  {
    var steps := StepsOf(ctx, |Rows(ctx)|);
    StepsCollect(ctx, |Rows(ctx)|);
    StepsDistinct(ctx, |Rows(ctx)|);
    assert steps[k] in steps;
    var j :| 0 <= j < |Rows(ctx)| && TextOf(ctx, Rows(ctx)[j], ProcessStepId) == steps[k];
    i := j;
    SlotHoldsStep(ctx, i, |Rows(ctx)|);
    hide StepIndex, StepsOf, TextOf;
    assert steps[StepIndex(ctx, i)] == steps[k];
  }

  lemma OwnLeafPair(ctx: Context, i: nat, role: Role) returns (p: Pair)
    requires i < |Rows(ctx)| && (role.RiskRole? || role.CharRole?) && role.index == i
    requires role.RiskRole? ==> ctx.spec.documentType.Pfmea? && RiskLeaf(RiskOf(ctx, Rows(ctx)[i]), role.column).Some?
    requires role.CharRole? ==> HasCharacteristics(ctx.spec.documentType) && CharacteristicLeaf(CharacteristicOf(ctx, Rows(ctx)[i]), role.column).Some?
    ensures p.0 == role && p in RowPairs(ctx, i)
  {
    p := (role, role.column);
    assert p in BodyPairs(ctx, i) by {
      hide ColumnKeys;
      if role.RiskRole? {
        if role.column.ProcessStepId? {
          assert RiskPairs(HasEffect(ctx), i)[1] == p;
        } else {
          RiskColumnFeeds(HasEffect(ctx), i, role.column);
        }
      } else {
        CharacteristicLeafColumn(ctx, Rows(ctx)[i], role.column);
        CharacteristicColumnFeeds(ctx.spec.documentType.ControlPlan?, i, role.column);
      }
    }
    hide BodyPairs, StepIndex;
    var k :| 0 <= k < |BodyPairs(ctx, i)| && BodyPairs(ctx, i)[k] == p;
    assert RowPairs(ctx, i)[k + 1] == p;
  }

  lemma CharacteristicLeafColumn(ctx: Context, row: MappedRow, c: Canonical)
    requires CharacteristicLeaf(CharacteristicOf(ctx, row), c).Some?
    ensures c in RequiredColumns(if ctx.spec.documentType.ControlPlan? then ControlPlan else Sop)
  {}

  lemma FieldsShape(ctx: Context)
    ensures var f := FieldsOf(ctx);
      && f.steps == StepsOf(ctx, |Rows(ctx)|)
      && (f.RiskFields? <==> ctx.spec.documentType.Pfmea?) && (f.CharacteristicFields? <==> HasCharacteristics(ctx.spec.documentType))
      && (f.RiskFields? ==> |f.risks| == |Rows(ctx)| && forall i :: 0 <= i < |Rows(ctx)| ==> f.risks[i] == RiskOf(ctx, Rows(ctx)[i]))
      && (f.CharacteristicFields? ==>
            |f.characteristics| == |Rows(ctx)| && forall i :: 0 <= i < |Rows(ctx)| ==> f.characteristics[i] == CharacteristicOf(ctx, Rows(ctx)[i]))
  {
    hide StepsOf, RiskOf, CharacteristicOf, ReferencesOf;
  }

  /** Where a role of the final fields points: a step slot, a row's own leaf or locator, or a reference. */
  ghost predicate Placed(ctx: Context, role: Role) {
    match role
    case StepRole(k) => k < |StepsOf(ctx, |Rows(ctx)|)|
    case RiskRole(i, c) => i < |Rows(ctx)| && ctx.spec.documentType.Pfmea? && RiskLeaf(RiskOf(ctx, Rows(ctx)[i]), c).Some?
    case CharRole(i, c) =>
      i < |Rows(ctx)| && HasCharacteristics(ctx.spec.documentType) && CharacteristicLeaf(CharacteristicOf(ctx, Rows(ctx)[i]), c).Some?
    case RiskLocator(i) => i < |Rows(ctx)| && ctx.spec.documentType.Pfmea?
    case CharLocator(i) => i < |Rows(ctx)| && HasCharacteristics(ctx.spec.documentType)
    case RefRole(t, l) => HasReferences(FieldsOf(ctx))
  }

  lemma LeafPlaced(ctx: Context, registry: map<string, Identity>, role: Role)
    requires LeafValue(FieldsOf(ctx), registry, role).Some?
    ensures Placed(ctx, role)
  {
    FieldsShape(ctx);
    hide FieldsOf, Rows, StepsOf, RiskOf, CharacteristicOf, RiskLeaf, CharacteristicLeaf;
  }

  lemma LocatorExpected(ctx: Context, i: nat, role: Role)
    requires i < |Rows(ctx)| && !ctx.spec.documentType.ProcessFlow?
    requires role == LocatorRole(ctx, i)
    ensures Expected(ctx, LocatorEntry(ctx, i)) && LocatorEntry(ctx, i).target == PathOf(role)
  {
    hide LocatorEntry, PathOf, CellEntry;
    LocatorTarget(ctx, i);
    assert LocatorOf(ctx, LocatorEntry(ctx, i), |Rows(ctx)|);
  }

  /** Every leaf of the final fields has an expected entry. */
  lemma LeafEntry(ev: Evidence, ctx: Context, role: Role) returns (e: Entry)
    requires Honest(ev, ctx) && LeafValue(FieldsOf(ctx), ev.registry, role).Some?
    ensures FullyExpected(ev, ctx, e) && e.target == PathOf(role)
  {
    LeafPlaced(ctx, ev.registry, role);
    hide FieldsOf, Mappable, PathOf, AllParserCells, IsProvenance, FinalFields, Complete, Sound, RowPairs, RefPairs, StepsOf, StepIndex,
      RiskOf, CharacteristicOf, RiskLeaf, CharacteristicLeaf, CellEntry, LocatorEntry, Resolves, TextOf, LeafValue, Expected, ReferenceExpected;
    match role
    case StepRole(k) =>
      var i := StepSlot(ctx, k);
      StepLeads(ctx, i);
      assert RowPairs(ctx, i)[0] in RowPairs(ctx, i);
      e := PairEntry(ctx, i, StepPair(ctx, i));
    case RiskRole(i, c) =>
      var p := OwnLeafPair(ctx, i, role);
      e := PairEntry(ctx, i, p);
    case CharRole(i, c) =>
      var p := OwnLeafPair(ctx, i, role);
      e := PairEntry(ctx, i, p);
    case RiskLocator(i) =>
      LocatorExpected(ctx, i, role);
      e := LocatorEntry(ctx, i);
    case CharLocator(i) =>
      LocatorExpected(ctx, i, role);
      e := LocatorEntry(ctx, i);
    case RefRole(t, l) =>
      ReferencesResolve(ev, ctx);
      e := ReferenceLeafEntry(ev, ctx, t, l);
  }

  lemma ReferencesResolve(ev: Evidence, ctx: Context)
    requires Honest(ev, ctx) && HasReferences(FieldsOf(ctx))
    ensures ctx.spec.documentType.InspectionRecord? && Resolves(FieldsOf(ctx), ev.registry)
  {
    InspectionReferences(ctx);
    hide FieldsOf, Mappable, AllParserCells, IsProvenance, FinalFields, Sound, Resolves;
  }

  lemma ReferenceLeafEntry(ev: Evidence, ctx: Context, t: RefTarget, l: RefLeaf) returns (e: Entry)
    requires Sound(ctx) && Mappable(ctx) && Rows(ctx) != [] && ctx.spec.documentType.InspectionRecord?
    requires HasReferences(FieldsOf(ctx)) && Resolves(FieldsOf(ctx), ev.registry)
    ensures FullyExpected(ev, ctx, e) && e.target == PathOf(RefRole(t, l))
  {
    hide FieldsOf, Mappable, Sound, RowPairs, CellEntry, LocatorEntry, PathOf;
    if IsOverlaid(l) {
      e := ReferenceEntry(ev.registry, t, l);
      assert ReferenceExpected(ev, ctx, e);
    } else {
      var k := if t.ToSop? then (if l.RefDocumentId? then 0 else 1) else (if l.RefDocumentId? then 2 else 3);
      assert RefColumns()[k] in RefColumns() && RefColumns()[k].0 == RefRole(t, l);
      e := PairEntry(ctx, 0, RefColumns()[k]);
    }
  }

  // ---------- Each entry passes its own checks ----------

  lemma LocatorPath(role: Role)
    ensures IsLocator(PathOf(role)) <==> role.RiskLocator? || role.CharLocator?
  {
    match role
    case RiskRole(_, c) => NamesDiffer(c, c);
    case CharRole(_, c) => NamesDiffer(c, c);
    case _ =>
  }

  lemma RootValue(ev: Evidence, ctx: Context, role: Role)
    requires Honest(ev, ctx) && LeafValue(FieldsOf(ctx), ev.registry, role).Some?
    ensures ValueAt(ev.document.root, PathOf(role)) == LeafValue(FieldsOf(ctx), ev.registry, role)
  {
    LeafStored(FieldsOf(ctx), ev.registry, role);
    hide FieldsOf, Mappable, AllParserCells, IsProvenance, FinalFields, Complete, Sound, LeafValue;
    assert PathOf(role)[0] == Key("fields");
  }

  lemma CellSourceFits(ev: Evidence, ctx: Context, e: Entry, k: nat)
    requires Honest(ev, ctx) && CellEntry(ctx, e) && k < |EntrySources(e)|
    ensures SourceFits(ev, EntrySources(e)[k])
  {
    hide FieldsOf, Mappable, AllParserCells, IsProvenance, FinalFields, Complete, Sound, CellEntry, SourceAt, EntrySources;
    var i, p := SourceFrom(ctx, e, k);
    PairColumn(ctx, i, p);
    SourceRow(ctx, i, p.1);
    SourceIds(ctx, Rows(ctx)[i], p.1);
  }

  lemma ReferenceBacked(ev: Evidence, ctx: Context, t: RefTarget, l: RefLeaf)
    requires Rows(ctx) != [] && ctx.spec.documentType.InspectionRecord? && Complete(FieldsOf(ctx), ev.registry)
    requires IsOverlaid(l) && RefName(t) in ev.registry
    ensures var e := ReferenceEntry(ev.registry, t, l); Backed(ev, e, e.value)
  {
    InspectionReferences(ctx);
    hide FieldsOf;
    assert FieldsOf(ctx).references != map[];
  }

  lemma HonestMapping(ev: Evidence, ctx: Context, e: Entry)
    requires Honest(ev, ctx) && FullyExpected(ev, ctx, e)
    ensures MappingOk(ev, e)
  {
    var role := EntryLeaf(ev, ctx, e);
    LocatorPath(role);
    RootValue(ev, ctx, role);
    PyEqReflexive(e.value);
    hide FieldsOf, Mappable, AllParserCells, IsProvenance, FinalFields, Complete, Sound, CellEntry, SourceAt, EntrySources, PathOf, LeafValue,
      LocatorEntry, SourceFits, IsLocator, Backed;
    if CellEntry(ctx, e) {
      forall k | 0 <= k < |EntrySources(e)| ensures SourceFits(ev, EntrySources(e)[k]) {
        CellSourceFits(ev, ctx, e, k);
      }
    } else if LocatorOf(ctx, e, |Rows(ctx)|) {
      LocatorFits(ev, ctx, e);
    } else {
      var t, l :| IsOverlaid(l) && RefName(t) in ev.registry && e == ReferenceEntry(ev.registry, t, l);
      ReferenceBacked(ev, ctx, t, l);
    }
  }

  lemma LocatorFits(ev: Evidence, ctx: Context, e: Entry)
    requires Honest(ev, ctx) && LocatorOf(ctx, e, |Rows(ctx)|) && e.DerivedLocator?
    ensures SourceFits(ev, e.source) && e.source.row > 0 && e.source.column > 0 && e.derivation == LOCATOR_CONTRACT
  {
    hide FieldsOf, Mappable, AllParserCells, IsProvenance, FinalFields, Complete, Sound, SourceAt, LocatorEntry;
    var i: nat :| i < |Rows(ctx)| && e == LocatorEntry(ctx, i);
    LocatorSources(ctx, i);
    SourceRow(ctx, i, AnchorColumn(ctx));
    SourceIds(ctx, Rows(ctx)[i], AnchorColumn(ctx));
  }

  // ---------- Locators are anchored ----------

  lemma LocatorPrefix(ctx: Context, i: nat)
    requires !ctx.spec.documentType.ProcessFlow?
    ensures var collection := if ctx.spec.documentType.Pfmea? then "risks" else "characteristics";
      && RowPrefix(PathOf(LocatorRole(ctx, i))) == [Key("fields"), Key(collection), At(i)]
      && AnchorTarget(PathOf(LocatorRole(ctx, i))) == PathOf(AnchorRole(ctx, i))
  {}

  /** Only row `i`'s own leaves lie beside its locator. */
  lemma BesideLocator(ctx: Context, i: nat, p: Pair, r: nat)
    requires Sound(ctx) && r < |Rows(ctx)| && PairOfRow(ctx, r, p)
    requires RowPrefix(PathOf(p.0)) == [Key("fields"), Key("risks"), At(i)] || RowPrefix(PathOf(p.0)) == [Key("fields"), Key("characteristics"), At(i)]
    ensures r == i
  {
    RowRoles(ctx, r);
    RefRoles(ctx);
    hide RowPairs, RefPairs, Sound, StepIndex, ColumnKeys;
    if p in RowPairs(ctx, r) {
      var k :| 0 <= k < |RowPairs(ctx, r)| && RowPairs(ctx, r)[k] == p;
      assert OfRow(ctx, r, RowPairs(ctx, r)[k]);
    } else {
      var k :| 0 <= k < |RefPairs(ctx)| && RefPairs(ctx)[k] == p;
    }
    PrefixIndex(p.0, i);
  }

  lemma PrefixIndex(role: Role, i: nat)
    requires RowPrefix(PathOf(role)) == [Key("fields"), Key("risks"), At(i)] || RowPrefix(PathOf(role)) == [Key("fields"), Key("characteristics"), At(i)]
    ensures role.RiskRole? || role.RiskLocator? || role.CharRole? || role.CharLocator?
    ensures role.index == i
  {
    var p := PathOf(role);
    var prefix := RowPrefix(p);
    StepPrefix(if role.StepRole? then role.index else 0);
    assert prefix[2] == At(i);
  }

  lemma StepPrefix(i: nat)
    ensures |RowPrefix(PathOf(StepRole(i)))| == 1
  {
    var p := PathOf(StepRole(i));
    assert p[..2] == [Key("fields"), Key("process_steps")];
    assert |RowPrefix(p[..2])| == 1;
  }

  lemma HonestAnchor(ev: Evidence, ctx: Context, entries: seq<Entry>, i: nat)
    requires Honest(ev, ctx) && IsFullProvenance(ev, ctx, entries) && i < |Rows(ctx)| && !ctx.spec.documentType.ProcessFlow?
    ensures LocatorEntry(ctx, i).DerivedLocator? && Anchored(entries, LocatorEntry(ctx, i))
  {
    LocatorKind(ctx, i);
    LocatorTarget(ctx, i);
    LocatorPrefix(ctx, i);
    LocatorCopies(ev, ctx, i);
    RowsBesideLocator(ev, ctx, entries, i);
    var k := AnchorAmong(ev, ctx, entries, i);
    hide *;
    AnchorsIt(LocatorEntry(ctx, i), entries, k);
  }

  lemma AnchorsIt(e: Entry, entries: seq<Entry>, k: nat)
    requires e.DerivedLocator? && k < |entries| && entries[k].Direct? && entries[k].target == AnchorTarget(e.target) && entries[k].source == e.source
    requires DirectRows(entries, RowPrefix(e.target)) == {e.source.row}
    requires e.anchor == AnchorTarget(e.target) && e.value == Str(e.source.locator)
    ensures Anchored(entries, e)
  {
    hide AnchorTarget, RowPrefix, DirectRows;
    assert Anchors(e, entries[k]);
  }

  lemma LocatorCopies(ev: Evidence, ctx: Context, i: nat)
    requires Honest(ev, ctx) && i < |Rows(ctx)| && !ctx.spec.documentType.ProcessFlow?
    ensures LocatorEntry(ctx, i).source == SourceAt(ctx, Rows(ctx)[i], AnchorColumn(ctx))
    ensures LocatorEntry(ctx, i).source.row == Rows(ctx)[i].number
    ensures LocatorEntry(ctx, i).value == Str(LocatorEntry(ctx, i).source.locator)
    ensures LocatorEntry(ctx, i).anchor == PathOf(AnchorRole(ctx, i))
  {
    LocatorSources(ctx, i);
    SourceRow(ctx, i, AnchorColumn(ctx));
  }

  /** Every cell beside row `i`'s locator is in row `i`'s table row. */
  lemma RowsBesideLocator(ev: Evidence, ctx: Context, entries: seq<Entry>, i: nat)
    requires Honest(ev, ctx) && IsFullProvenance(ev, ctx, entries) && i < |Rows(ctx)| && !ctx.spec.documentType.ProcessFlow?
    ensures DirectRows(entries, RowPrefix(PathOf(LocatorRole(ctx, i)))) == {Rows(ctx)[i].number}
  {
    var prefix := RowPrefix(PathOf(LocatorRole(ctx, i)));
    var k := AnchorBeside(ev, ctx, entries, i);
    hide *;
    DirectRow(entries, k, 0);
    forall n | n in DirectRows(entries, prefix) ensures n == Rows(ctx)[i].number {
      var a, j := DirectRowFrom(entries, prefix, n);
      RowBesideLocator(ev, ctx, entries, i, a, j);
    }
  }

  lemma AnchorBeside(ev: Evidence, ctx: Context, entries: seq<Entry>, i: nat) returns (k: nat)
    requires Honest(ev, ctx) && IsFullProvenance(ev, ctx, entries) && i < |Rows(ctx)| && !ctx.spec.documentType.ProcessFlow?
    ensures k < |entries| && IsCellEntry(entries[k]) && RowPrefix(entries[k].target) == RowPrefix(PathOf(LocatorRole(ctx, i)))
    ensures |EntrySources(entries[k])| > 0 && EntrySources(entries[k])[0].row == Rows(ctx)[i].number
  {
    LocatorCopies(ev, ctx, i);
    AnchorPrefix(ctx, i);
    k := AnchorAmong(ev, ctx, entries, i);
    hide FieldsOf, Mappable, AllParserCells, IsProvenance, FinalFields, Complete, Sound, SourceAt, LocatorEntry, PathOf, RowPrefix, AnchorTarget,
      LocatorRole, AnchorRole, FullyExpected;
  }

  lemma DirectRow(entries: seq<Entry>, k: nat, j: nat)
    requires k < |entries| && IsCellEntry(entries[k]) && j < |EntrySources(entries[k])|
    ensures EntrySources(entries[k])[j].row in DirectRows(entries, RowPrefix(entries[k].target))
  {
    hide EntrySources, RowPrefix;
  }

  lemma DirectRowFrom(entries: seq<Entry>, prefix: Path, n: int) returns (k: nat, j: nat)
    requires n in DirectRows(entries, prefix)
    ensures k < |entries| && j < |EntrySources(entries[k])| && IsCellEntry(entries[k]) && RowPrefix(entries[k].target) == prefix
    ensures EntrySources(entries[k])[j].row == n
  {
    hide EntrySources, RowPrefix;
    k, j :| k < |entries| && j < |EntrySources(entries[k])| && IsCellEntry(entries[k]) && RowPrefix(entries[k].target) == prefix
      && EntrySources(entries[k])[j].row == n;
  }

  lemma AnchorPrefix(ctx: Context, i: nat)
    requires !ctx.spec.documentType.ProcessFlow?
    ensures RowPrefix(PathOf(AnchorRole(ctx, i))) == RowPrefix(PathOf(LocatorRole(ctx, i)))
  {}

  /** The anchor's single-cell entry is listed. */
  lemma AnchorAmong(ev: Evidence, ctx: Context, entries: seq<Entry>, i: nat) returns (k: nat)
    requires Honest(ev, ctx) && IsFullProvenance(ev, ctx, entries) && i < |Rows(ctx)| && !ctx.spec.documentType.ProcessFlow?
    ensures k < |entries| && entries[k].Direct? && entries[k].target == PathOf(AnchorRole(ctx, i))
    ensures entries[k].source == SourceAt(ctx, Rows(ctx)[i], AnchorColumn(ctx))
  {
    AnchorListed(ctx, ev.expected, i, |Rows(ctx)|);
    hide FieldsOf, Mappable, AllParserCells, FinalFields, Complete, Sound, SourceAt, PathOf, AnchorRole, CellEntry;
    var anchor := DirectEntry(FeedAt(ctx, Rows(ctx)[i], (AnchorRole(ctx, i), AnchorColumn(ctx))));
    ListedExpected(ctx, ev.expected, anchor);
    assert anchor in entries;
    k :| 0 <= k < |entries| && entries[k] == anchor;
  }

  lemma RowBesideLocator(ev: Evidence, ctx: Context, entries: seq<Entry>, i: nat, a: nat, j: nat)
    requires Honest(ev, ctx) && IsFullProvenance(ev, ctx, entries) && i < |Rows(ctx)| && !ctx.spec.documentType.ProcessFlow?
    requires a < |entries| && IsCellEntry(entries[a]) && j < |EntrySources(entries[a])|
    requires RowPrefix(entries[a].target) == RowPrefix(PathOf(LocatorRole(ctx, i)))
    ensures EntrySources(entries[a])[j].row == Rows(ctx)[i].number
  {
    LocatorPrefix(ctx, i);
    assert entries[a] in entries;
    assert FullyExpected(ev, ctx, entries[a]);
    CellKind(ev, ctx, entries[a]);
    hide FieldsOf, Mappable, AllParserCells, FinalFields, Complete, Sound, SourceAt, PathOf, RowPrefix, LocatorRole, CellEntry, AnchorTarget;
    var r, p := SourceFrom(ctx, entries[a], j);
    BesideLocator(ctx, i, p, r);
    PairColumn(ctx, r, p);
    SourceRow(ctx, r, p.1);
  }

  lemma CellKind(ev: Evidence, ctx: Context, e: Entry)
    requires Honest(ev, ctx) && FullyExpected(ev, ctx, e) && IsCellEntry(e)
    ensures CellEntry(ctx, e)
  {
    var role := EntryLeaf(ev, ctx, e);
  }

  // ---------- The builder's own provenance is accepted ----------

  lemma LeafTargeted(ev: Evidence, ctx: Context, entries: seq<Entry>, p: Path)
    requires Honest(ev, ctx) && IsFullProvenance(ev, ctx, entries)
    requires p in ScalarLeaves(ev.document.fields, [Key("fields")])
    ensures p in Targets(entries)
  {
    LimitsAreScalar(ctx);
    LeafIff(ev.document.fields, [Key("fields")], p);
    hide FieldsOf, Mappable, AllParserCells, Sound, PathOf, FullyExpected, LimitsScalar, LeafValue, ScalarLeaves, FinalFields, IsProvenance, Complete;
    assert p == [Key("fields")] + p[1..];
    var role := LeafNamed(FieldsOf(ctx), ev.registry, p[1..]);
    var e := LeafEntry(ev, ctx, role);
    assert e in entries;
    var k: nat :| k < |entries| && entries[k] == e;
  }

  lemma TargetIsLeaf(ev: Evidence, ctx: Context, entries: seq<Entry>, k: nat)
    requires Honest(ev, ctx) && IsFullProvenance(ev, ctx, entries) && k < |entries|
    ensures entries[k].target in ScalarLeaves(ev.document.fields, [Key("fields")])
  {
    hide FieldsOf, Mappable, AllParserCells, Sound, PathOf, FullyExpected, LeafValue, ScalarLeaves, FinalFields, IsProvenance, Complete;
    assert entries[k] in entries;
    LeafIff(ev.document.fields, [Key("fields")], entries[k].target);
    var role := EntryLeaf(ev, ctx, entries[k]);
    LeafStored(FieldsOf(ctx), ev.registry, role);
    FieldsFirst(role);
  }

  lemma HonestLeaves(ev: Evidence, ctx: Context, entries: seq<Entry>)
    requires Honest(ev, ctx) && IsFullProvenance(ev, ctx, entries)
    ensures ScalarLeaves(ev.document.fields, [Key("fields")]) == Targets(entries)
  {
    hide Honest, IsFullProvenance, ScalarLeaves;
    forall p | p in ScalarLeaves(ev.document.fields, [Key("fields")]) ensures p in Targets(entries) {
      LeafTargeted(ev, ctx, entries, p);
    }
    forall p | p in Targets(entries) ensures p in ScalarLeaves(ev.document.fields, [Key("fields")]) {
      var k: nat :| k < |entries| && entries[k].target == p;
      TargetIsLeaf(ev, ctx, entries, k);
    }
  }

  lemma FieldsFirst(role: Role)
    ensures [Key("fields")] <= PathOf(role)
  {}

  lemma HonestFollows(ev: Evidence, ctx: Context, entries: seq<Entry>)
    requires Honest(ev, ctx) && IsFullProvenance(ev, ctx, entries)
    ensures FollowsPlan(ev, entries)
  {
    hide FieldsOf, Mappable, AllParserCells, Sound, Expected, EntryEq, FinalFields, Complete;
    forall k | 0 <= k < |entries| && !entries[k].ReferenceIdentity? ensures PlannedFor(ev, entries[k]) {
      assert entries[k] in entries;
      assert FullyExpected(ev, ctx, entries[k]);
      assert !ReferenceExpected(ev, ctx, entries[k]);
      ListedExpected(ctx, ev.expected, entries[k]);
      var j :| 0 <= j < |ev.expected| && ev.expected[j] == entries[k];
      EntryEqReflexive(entries[k]);
      assert EntryEq(entries[k], ev.expected[j]);
    }
    forall j | 0 <= j < |ev.expected| ensures MappedAs(entries, ev.expected[j]) {
      ListedExpected(ctx, ev.expected, ev.expected[j]);
      assert FullyExpected(ev, ctx, ev.expected[j]);
      assert ev.expected[j] in entries;
      var k :| 0 <= k < |entries| && entries[k] == ev.expected[j];
      EntryEqReflexive(entries[k]);
      assert EntryEq(entries[k], ev.expected[j]);
    }
  }

  /** Within the size limits the check accepts the builder's own provenance. */
  lemma HonestAccepted(ev: Evidence, ctx: Context, entries: seq<Entry>)
    requires Honest(ev, ctx) && IsFullProvenance(ev, ctx, entries) && WithinLimits(ev, entries)
    ensures Closed(ev, entries)
  {
    HonestCells(ev, ctx);
    HonestPlan(ev, ctx);
    HonestFollows(ev, ctx, entries);
    HonestLeaves(ev, ctx, entries);
    SomeEntry(ev, ctx, entries);
    assert DistinctTargets(entries);
    hide FieldsOf, Mappable, AllParserCells, Sound, CellEntry, LocatorEntry, ReferenceExpected, FinalFields, Complete, CellsOk, PlanOk,
      FollowsPlan, ScalarLeaves, Targets, MappingOk, Anchored, IsProvenance;
    forall k | 0 <= k < |entries| ensures MappingOk(ev, entries[k]) {
      assert entries[k] in entries;
      HonestMapping(ev, ctx, entries[k]);
    }
    forall k | 0 <= k < |entries| && entries[k].DerivedLocator? ensures Anchored(entries, entries[k]) {
      assert entries[k] in entries;
      LocatorOnly(ev, ctx, entries[k]);
      var i: nat :| i < |Rows(ctx)| && entries[k] == LocatorEntry(ctx, i);
      HonestAnchor(ev, ctx, entries, i);
    }
  }

  lemma LocatorOnly(ev: Evidence, ctx: Context, e: Entry)
    requires Honest(ev, ctx) && FullyExpected(ev, ctx, e) && e.DerivedLocator?
    ensures LocatorOf(ctx, e, |Rows(ctx)|)
  {
    var role := EntryLeaf(ev, ctx, e);
  }

  lemma SomeEntry(ev: Evidence, ctx: Context, entries: seq<Entry>)
    requires Honest(ev, ctx) && IsFullProvenance(ev, ctx, entries)
    ensures |entries| > 0
  {
    hide Mappable, AllParserCells, Sound, Expected, IsProvenance, RowPairs;
    StepLeads(ctx, 0);
    assert RowPairs(ctx, 0)[0] in RowPairs(ctx, 0);
    var e := PairEntry(ctx, 0, StepPair(ctx, 0));
    assert FullyExpected(ev, ctx, e);
    assert e in entries;
  }
}

/** What a table's cells say, from their texts and the library conventions alone, and that a document's fields
    hold exactly that. */
module CellReadings {
  import opened Json
  import opened Provenance
  import opened Tables
  import opened Roles
  import opened Feeds
  import opened Builder

  // ---------- One cell ----------

  /** What a row says in a column; nothing where it lacks the cell. */
  ghost function Said(conv: Conventions, row: MappedRow, c: Canonical): string {
    if c in row.cells then conv.strip(row.cells[c].text) else ""
  }

  ghost predicate IsLimit(c: Canonical) {
    c == Target || c == Minimum || c == Maximum
  }

  /** The cell has a text its column can be read from. */
  ghost predicate Speaks(conv: Conventions, row: MappedRow, c: Canonical) {
    && c in row.cells
    && var said := conv.strip(row.cells[c].text);
       && said != ""
       && (c == SpecialCharacteristic ==> conv.casefold(said) == "true" || conv.casefold(said) == "false")
       && (IsLimit(c) ==> conv.float(said).Some?)
  }

  /** The number `x`, an integer exactly when `x` is integral. */
  ghost predicate IsNumeral(v: Json, x: real) {
    && (v.Int? || v.Real?) && NumberOf(v) == x
    && (v.Int? <==> x == x.Floor as real)
  }

  /** `v` is what the cell says: a flag, a limit or the stripped text. */
  ghost predicate Means(conv: Conventions, row: MappedRow, c: Canonical, v: Json) {
    var said := Said(conv, row, c);
    if c == SpecialCharacteristic then v.Bool? && (v.b <==> conv.casefold(said) == "true")
    else if IsLimit(c) then conv.float(said).Some? && IsNumeral(v, conv.float(said).value)
    else v == Str(said)
  }

  /** A column of a row is read exactly when its cell speaks, and then gives the one value it means. */
  lemma CellRead(conv: Conventions, row: MappedRow, c: Canonical, v: Json)
    ensures CellValue(conv, row, c).Some? <==> Speaks(conv, row, c)
    ensures CellValue(conv, row, c) == Some(v) <==> Speaks(conv, row, c) && Means(conv, row, c, v)
  {}

  // ---------- The whole table ----------

  /** Every mapped column of every row speaks. */
  ghost predicate RowSpeaks(conv: Conventions, spec: Spec, row: MappedRow) {
    forall k :: 0 <= k < |spec.columns| ==> Speaks(conv, row, spec.columns[k].0)
  }

  /** Two rows name different things, as their document type requires. */
  ghost predicate NamesApart(conv: Conventions, t: DocumentType, a: MappedRow, b: MappedRow) {
    match t
    case ProcessFlow => Said(conv, a, ProcessStepId) != Said(conv, b, ProcessStepId)
    case Pfmea => Said(conv, a, FailureModeId) != Said(conv, b, FailureModeId)
    case _ =>
      && (conv.norm(Said(conv, a, ProcessStepId)) != conv.norm(Said(conv, b, ProcessStepId))
          || conv.norm(Said(conv, a, CharacteristicId)) != conv.norm(Said(conv, b, CharacteristicId)))
      && (t == ControlPlan ==> Said(conv, a, ControlId) != Said(conv, b, ControlId))
  }

  ghost predicate SameTargets(conv: Conventions, a: MappedRow, b: MappedRow) {
    && Said(conv, a, SopDocumentId) == Said(conv, b, SopDocumentId)
    && Said(conv, a, SopRevision) == Said(conv, b, SopRevision)
    && Said(conv, a, ControlPlanDocumentId) == Said(conv, b, ControlPlanDocumentId)
    && Said(conv, a, ControlPlanRevision) == Said(conv, b, ControlPlanRevision)
  }

  /** The cells make a document: they speak, no identifier repeats, and an inspection refers to one pair. */
  ghost predicate TableSpeaks(conv: Conventions, spec: Spec, rows: seq<MappedRow>) {
    && (forall i :: 0 <= i < |rows| ==> RowSpeaks(conv, spec, rows[i]))
    && (forall i, j :: 0 <= i < j < |rows| ==> NamesApart(conv, spec.documentType, rows[i], rows[j]))
    && (spec.documentType == InspectionRecord ==> forall i :: 0 <= i < |rows| ==> SameTargets(conv, rows[0], rows[i]))
  }

  lemma RowReadable(ctx: Context, row: MappedRow)
    ensures Readable(ctx, row) <==> RowSpeaks(ctx.conv, ctx.spec, row)
  {
    var columns := ctx.spec.columns;
    hide CellValue, Speaks;
    forall c ensures CellValue(ctx.conv, row, c).Some? <==> Speaks(ctx.conv, row, c) {
      CellRead(ctx.conv, row, c, Null);
    }
    forall k | 0 <= k < |columns| ensures columns[k].0 in ColumnKeys(ctx.spec) {}
  }

  lemma TextSaid(ctx: Context, row: MappedRow, c: Canonical)
    ensures TextOf(ctx, row, c) == Said(ctx.conv, row, c)
  {}

  lemma RowsNamedApart(ctx: Context, i: nat, j: nat)
    requires i < |Rows(ctx)| && j < |Rows(ctx)|
    ensures RowsApart(ctx, i, j) <==> NamesApart(ctx.conv, ctx.spec.documentType, ctx.table.rows[i], ctx.table.rows[j])
  {
    hide TextOf, Said;
    forall row, c ensures TextOf(ctx, row, c) == Said(ctx.conv, row, c) {
      TextSaid(ctx, row, c);
    }
  }

  lemma ReferencesSaid(ctx: Context, a: MappedRow, b: MappedRow)
    ensures SameReferences(ctx, a, b) <==> SameTargets(ctx.conv, a, b)
  {
    hide TextOf, Said;
    forall row, c ensures TextOf(ctx, row, c) == Said(ctx.conv, row, c) {
      TextSaid(ctx, row, c);
    }
    var columns := RefColumns();
    assert columns[0].1 == SopDocumentId && columns[1].1 == SopRevision;
    assert columns[2].1 == ControlPlanDocumentId && columns[3].1 == ControlPlanRevision;
  }

  /** A table is mapped exactly when its cells make a document. */
  lemma MappableIff(ctx: Context)
    ensures Mappable(ctx) <==> TableSpeaks(ctx.conv, ctx.spec, ctx.table.rows)
  {
    hide Readable, RowSpeaks, RowsApart, NamesApart, SameReferences, SameTargets;
    var rows := ctx.table.rows;
    forall i | 0 <= i < |rows|
      ensures Readable(ctx, rows[i]) <==> RowSpeaks(ctx.conv, ctx.spec, rows[i])
      ensures SameReferences(ctx, rows[0], rows[i]) <==> SameTargets(ctx.conv, rows[0], rows[i])
    {
      RowReadable(ctx, rows[i]);
      ReferencesSaid(ctx, rows[0], rows[i]);
    }
    forall i, j | 0 <= i < j < |rows|
      ensures RowsApart(ctx, i, j) <==> NamesApart(ctx.conv, ctx.spec.documentType, rows[i], rows[j])
    {
      RowsNamedApart(ctx, i, j);
    }
  }

  // ---------- The fields ----------

  /** Some row is the first to say the step, after rows that said earlier ones. */
  ghost predicate FirstSaid(conv: Conventions, rows: seq<MappedRow>, steps: seq<string>, k: nat)
    requires k < |steps|
  {
    exists i :: 0 <= i < |rows| && Said(conv, rows[i], ProcessStepId) == steps[k]
      && forall j :: 0 <= j < i ==> Said(conv, rows[j], ProcessStepId) in steps[..k]
  }

  /** The steps the rows say, each once, in the order they are first said. */
  ghost predicate StepsSaid(conv: Conventions, rows: seq<MappedRow>, steps: seq<string>) {
    && (forall i :: 0 <= i < |rows| ==> Said(conv, rows[i], ProcessStepId) in steps)
    && (forall k :: 0 <= k < |steps| ==> FirstSaid(conv, rows, steps, k))
    && (forall k, l :: 0 <= k < l < |steps| ==> steps[k] != steps[l])
  }

  ghost predicate RiskSaid(conv: Conventions, hasEffect: bool, row: MappedRow, risk: Risk) {
    && risk.failureModeId == Said(conv, row, FailureModeId)
    && risk.processStepId == Said(conv, row, ProcessStepId)
    && risk.characteristicId == Said(conv, row, CharacteristicId)
    && (risk.special <==> conv.casefold(Said(conv, row, SpecialCharacteristic)) == "true")
    && risk.effect == (if hasEffect then Some(Said(conv, row, Effect)) else None)
    && FailureModeId in row.cells && risk.locator == row.cells[FailureModeId].locator
  }

  ghost predicate LimitSaid(conv: Conventions, row: MappedRow, c: Canonical, v: Json) {
    conv.float(Said(conv, row, c)).Some? && IsNumeral(v, conv.float(Said(conv, row, c)).value)
  }

  ghost predicate CharacteristicSaid(conv: Conventions, t: DocumentType, row: MappedRow, ch: Characteristic) {
    && ch.processStepId == Said(conv, row, ProcessStepId)
    && ch.characteristicId == Said(conv, row, CharacteristicId)
    && LimitSaid(conv, row, Target, ch.target) && LimitSaid(conv, row, Minimum, ch.minimum) && LimitSaid(conv, row, Maximum, ch.maximum)
    && ch.unit == Said(conv, row, Unit)
    && (ch.controls.Some? <==> t == ControlPlan)
    && (t == ControlPlan ==> ControlsSaid(conv, row, ch.controls.value))
    && CharacteristicId in row.cells && ch.locator == row.cells[CharacteristicId].locator
  }

  ghost predicate ControlsSaid(conv: Conventions, row: MappedRow, controls: Controls) {
    && controls.controlId == Said(conv, row, ControlId) && controls.controlMethod == Said(conv, row, ControlMethod)
    && controls.frequency == Said(conv, row, Frequency) && controls.reactionPlan == Said(conv, row, ReactionPlan)
  }

  ghost predicate ReferencesHeld(conv: Conventions, t: DocumentType, rows: seq<MappedRow>, references: map<RefTarget, Reference>) {
    if t == InspectionRecord then
      && references.Keys == {ToSop, ToControlPlan}
      && forall i :: 0 <= i < |rows| ==> ReferencesOfRow(conv, rows[i], references[ToSop], references[ToControlPlan])
    else references == map[]
  }

  ghost predicate ReferencesOfRow(conv: Conventions, row: MappedRow, sop: Reference, controlPlan: Reference) {
    && sop.documentId == Said(conv, row, SopDocumentId) && sop.revision == Said(conv, row, SopRevision)
    && controlPlan.documentId == Said(conv, row, ControlPlanDocumentId) && controlPlan.revision == Said(conv, row, ControlPlanRevision)
  }

  ghost predicate MapsEffect(spec: Spec) {
    exists k :: 0 <= k < |spec.columns| && spec.columns[k].0 == Effect
  }

  ghost predicate RisksSaid(conv: Conventions, spec: Spec, rows: seq<MappedRow>, risks: seq<Risk>) {
    && |risks| == |rows|
    && forall i :: 0 <= i < |rows| ==> RiskSaid(conv, MapsEffect(spec), rows[i], risks[i])
  }

  ghost predicate CharacteristicsSaid(conv: Conventions, spec: Spec, rows: seq<MappedRow>, cs: seq<Characteristic>) {
    && |cs| == |rows|
    && forall i :: 0 <= i < |rows| ==> CharacteristicSaid(conv, spec.documentType, rows[i], cs[i])
  }

  /** The fields are what the table says: one risk or characteristic a row, in row order. */
  ghost predicate FieldsSaid(conv: Conventions, spec: Spec, rows: seq<MappedRow>, fields: Fields) {
    && StepsSaid(conv, rows, fields.steps)
    && match spec.documentType
       case ProcessFlow => fields.StepFields?
       case Pfmea => fields.RiskFields? && RisksSaid(conv, spec, rows, fields.risks)
       case t =>
         && fields.CharacteristicFields? && CharacteristicsSaid(conv, spec, rows, fields.characteristics)
         && ReferencesHeld(conv, t, rows, fields.references)
  }

  lemma {:induction false} StepsAreSaid(ctx: Context, n: nat)
    requires n <= |Rows(ctx)|
    ensures StepsSaid(ctx.conv, ctx.table.rows[..n], StepsOf(ctx, n))
  {
    if n > 0 {
      StepsAreSaid(ctx, n - 1);
      var rows, steps := ctx.table.rows[..n - 1], StepsOf(ctx, n - 1);
      var row := ctx.table.rows[n - 1];
      TextSaid(ctx, row, ProcessStepId);
      assert ctx.table.rows[..n] == rows + [row];
      OneMoreSaid(ctx.conv, rows, steps, row);
    }
  }

  lemma OneMoreSaid(conv: Conventions, rows: seq<MappedRow>, steps: seq<string>, row: MappedRow)
    requires StepsSaid(conv, rows, steps)
    ensures var step := Said(conv, row, ProcessStepId);
      StepsSaid(conv, rows + [row], if step in steps then steps else steps + [step])
  {
    hide Said;
    var step := Said(conv, row, ProcessStepId);
    var more := if step in steps then steps else steps + [step];
    forall k | 0 <= k < |more| ensures FirstSaid(conv, rows + [row], more, k) {
      var i := if k < |steps| then FirstRow(conv, rows, steps, k) else |rows|;
      assert more[..k] == steps[..k];
      assert (rows + [row])[i] == if i < |rows| then rows[i] else row;
      forall j | 0 <= j < i ensures Said(conv, (rows + [row])[j], ProcessStepId) in more[..k] {
        assert (rows + [row])[j] == rows[j];
        assert k == |steps| ==> steps[..k] == steps;
      }
    }
  }

  ghost function FirstRow(conv: Conventions, rows: seq<MappedRow>, steps: seq<string>, k: nat): (i: nat)
    requires k < |steps| && FirstSaid(conv, rows, steps, k)
    ensures i < |rows| && Said(conv, rows[i], ProcessStepId) == steps[k]
    ensures forall j :: 0 <= j < i ==> Said(conv, rows[j], ProcessStepId) in steps[..k]
  {
    var i :| 0 <= i < |rows| && Said(conv, rows[i], ProcessStepId) == steps[k]
      && forall j :: 0 <= j < i ==> Said(conv, rows[j], ProcessStepId) in steps[..k];
    i
  }

  /** The rule fixes the steps: two lists it allows are one. */
  lemma {:induction false} StepsFixed(conv: Conventions, rows: seq<MappedRow>, a: seq<string>, b: seq<string>, n: nat)
    requires StepsSaid(conv, rows, a) && StepsSaid(conv, rows, b) && n <= |a|
    ensures n <= |b| && a[..n] == b[..n]
  {
    hide Said;
    if n > 0 {
      StepsFixed(conv, rows, a, b, n - 1);
      var i := FirstRow(conv, rows, a, n - 1);
      assert a[n - 1] !in a[..n - 1];
      assert Said(conv, rows[i], ProcessStepId) in b;
      assert n - 1 < |b|;
      var j := FirstRow(conv, rows, b, n - 1);
      assert b[n - 1] !in b[..n - 1];
      assert i == j;
    }
  }

  lemma FlagSaid(ctx: Context, row: MappedRow)
    requires Speaks(ctx.conv, row, SpecialCharacteristic)
    ensures ValueOf(ctx, row, SpecialCharacteristic) == Bool(true) <==> ctx.conv.casefold(Said(ctx.conv, row, SpecialCharacteristic)) == "true"
  {
    CellRead(ctx.conv, row, SpecialCharacteristic, ValueOf(ctx, row, SpecialCharacteristic));
    hide CellValue;
  }

  lemma LimitIsSaid(ctx: Context, row: MappedRow, c: Canonical)
    requires Speaks(ctx.conv, row, c) && IsLimit(c)
    ensures LimitSaid(ctx.conv, row, c, ValueOf(ctx, row, c))
  {
    CellRead(ctx.conv, row, c, ValueOf(ctx, row, c));
    hide CellValue;
  }

  lemma RequiredSpeaks(ctx: Context, row: MappedRow, c: Canonical)
    requires Sound(ctx) && RowSpeaks(ctx.conv, ctx.spec, row) && c in RequiredColumns(ctx.spec.documentType)
    ensures Speaks(ctx.conv, row, c)
  {
    hide Speaks, WellFormed;
    assert c in ColumnKeys(ctx.spec);
  }

  lemma RiskIsSaid(ctx: Context, row: MappedRow)
    requires Sound(ctx) && RowSpeaks(ctx.conv, ctx.spec, row) && ctx.spec.documentType == Pfmea
    ensures RiskSaid(ctx.conv, MapsEffect(ctx.spec), row, RiskOf(ctx, row))
  {
    assert {FailureModeId, SpecialCharacteristic} <= RequiredColumns(Pfmea);
    RequiredSpeaks(ctx, row, FailureModeId);
    RequiredSpeaks(ctx, row, SpecialCharacteristic);
    FlagSaid(ctx, row);
    EffectMapped(ctx);
    hide Sound, RowSpeaks, ValueOf, HasEffect, ColumnKeys;
  }

  lemma EffectMapped(ctx: Context)
    ensures HasEffect(ctx) <==> MapsEffect(ctx.spec)
  {
    var columns := ctx.spec.columns;
    if k :| 0 <= k < |columns| && columns[k].0 == Effect {
      assert columns[k].0 in ColumnKeys(ctx.spec);
    }
  }

  lemma LimitsAreSaid(ctx: Context, row: MappedRow)
    requires Sound(ctx) && RowSpeaks(ctx.conv, ctx.spec, row) && HasCharacteristics(ctx.spec.documentType)
    ensures LimitSaid(ctx.conv, row, Target, ValueOf(ctx, row, Target))
    ensures LimitSaid(ctx.conv, row, Minimum, ValueOf(ctx, row, Minimum))
    ensures LimitSaid(ctx.conv, row, Maximum, ValueOf(ctx, row, Maximum))
    ensures CharacteristicId in row.cells
  {
    hide Sound, RowSpeaks, ValueOf, LimitSaid;
    assert {CharacteristicId, Target, Minimum, Maximum} <= RequiredColumns(ctx.spec.documentType);
    hide RequiredColumns;
    RequiredSpeaks(ctx, row, CharacteristicId);
    RequiredSpeaks(ctx, row, Target);
    RequiredSpeaks(ctx, row, Minimum);
    RequiredSpeaks(ctx, row, Maximum);
    LimitIsSaid(ctx, row, Target);
    LimitIsSaid(ctx, row, Minimum);
    LimitIsSaid(ctx, row, Maximum);
  }

  lemma CharacteristicIsSaid(ctx: Context, row: MappedRow)
    requires Sound(ctx) && RowSpeaks(ctx.conv, ctx.spec, row) && HasCharacteristics(ctx.spec.documentType)
    ensures CharacteristicSaid(ctx.conv, ctx.spec.documentType, row, CharacteristicOf(ctx, row))
  {
    hide Sound, RowSpeaks, ValueOf, LimitSaid;
    LimitsAreSaid(ctx, row);
  }

  lemma ReferencesAreHeld(ctx: Context)
    requires Rows(ctx) != [] && TableSpeaks(ctx.conv, ctx.spec, ctx.table.rows)
    ensures ReferencesHeld(ctx.conv, ctx.spec.documentType, ctx.table.rows, ReferencesOf(ctx))
  {
    hide RowSpeaks, NamesApart, Said, TextOf;
    forall c ensures TextOf(ctx, ctx.table.rows[0], c) == Said(ctx.conv, ctx.table.rows[0], c) {
      TextSaid(ctx, ctx.table.rows[0], c);
    }
    var rows := ctx.table.rows;
    forall i | 0 <= i < |rows| && ctx.spec.documentType == InspectionRecord
      ensures SameTargets(ctx.conv, rows[0], rows[i])
    {}
  }

  lemma RisksAreSaid(ctx: Context)
    requires Sound(ctx) && TableSpeaks(ctx.conv, ctx.spec, ctx.table.rows) && ctx.spec.documentType == Pfmea
    ensures RisksSaid(ctx.conv, ctx.spec, ctx.table.rows, RisksOf(ctx, |ctx.table.rows|))
  {
    hide Sound, RowSpeaks, NamesApart, RiskOf, RiskSaid, SameTargets;
    forall i | 0 <= i < |ctx.table.rows| ensures RiskSaid(ctx.conv, MapsEffect(ctx.spec), ctx.table.rows[i], RiskOf(ctx, ctx.table.rows[i])) {
      RiskIsSaid(ctx, ctx.table.rows[i]);
    }
  }

  lemma CharacteristicsAreSaid(ctx: Context)
    requires Sound(ctx) && TableSpeaks(ctx.conv, ctx.spec, ctx.table.rows) && HasCharacteristics(ctx.spec.documentType)
    ensures CharacteristicsSaid(ctx.conv, ctx.spec, ctx.table.rows, CharacteristicsOf(ctx, |ctx.table.rows|))
  {
    hide Sound, RowSpeaks, NamesApart, CharacteristicOf, CharacteristicSaid, SameTargets;
    var t := ctx.spec.documentType;
    forall i | 0 <= i < |ctx.table.rows| ensures CharacteristicSaid(ctx.conv, t, ctx.table.rows[i], CharacteristicOf(ctx, ctx.table.rows[i])) {
      CharacteristicIsSaid(ctx, ctx.table.rows[i]);
    }
  }

  /** A mapped table's fields are what its cells say. */
  lemma FieldsAreSaid(ctx: Context)
    requires Sound(ctx) && Rows(ctx) != [] && Mappable(ctx)
    ensures FieldsSaid(ctx.conv, ctx.spec, ctx.table.rows, FieldsOf(ctx))
  {
    var rows := ctx.table.rows;
    MappableIff(ctx);
    hide Sound, Mappable, TableSpeaks, StepsOf, StepsSaid, RisksOf, RisksSaid, CharacteristicsOf, CharacteristicsSaid, ReferencesOf, ReferencesHeld;
    StepsAreSaid(ctx, |rows|);
    ReferencesAreHeld(ctx);
    assert rows[..|rows|] == rows;
    match ctx.spec.documentType
    case ProcessFlow =>
    case Pfmea => RisksAreSaid(ctx);
    case _ => CharacteristicsAreSaid(ctx);
  }

  // ---------- One meaning ----------

  lemma NumeralFixed(a: Json, b: Json, x: real)
    requires IsNumeral(a, x) && IsNumeral(b, x)
    ensures a == b
  {}

  lemma CharacteristicFixed(conv: Conventions, t: DocumentType, row: MappedRow, a: Characteristic, b: Characteristic)
    requires CharacteristicSaid(conv, t, row, a) && CharacteristicSaid(conv, t, row, b)
    ensures a == b
  {
    hide Said, IsNumeral;
    NumeralFixed(a.target, b.target, conv.float(Said(conv, row, Target)).value);
    NumeralFixed(a.minimum, b.minimum, conv.float(Said(conv, row, Minimum)).value);
    NumeralFixed(a.maximum, b.maximum, conv.float(Said(conv, row, Maximum)).value);
  }

  /** The cells leave no choice: the fields they say are the only ones. */
  lemma FieldsFixed(conv: Conventions, spec: Spec, rows: seq<MappedRow>, a: Fields, b: Fields)
    requires rows != [] && FieldsSaid(conv, spec, rows, a) && FieldsSaid(conv, spec, rows, b)
    ensures a == b
  {
    StepsFixed(conv, rows, a.steps, b.steps, |a.steps|);
    StepsFixed(conv, rows, b.steps, a.steps, |b.steps|);
    assert a.steps == b.steps by {
      assert a.steps[..|a.steps|] == a.steps && b.steps[..|b.steps|] == b.steps;
    }
    hide StepsSaid, CharacteristicSaid, Said;
    match spec.documentType
    case ProcessFlow =>
    case Pfmea =>
      assert |a.risks| == |b.risks| && forall i :: 0 <= i < |rows| ==> a.risks[i] == b.risks[i];
    case t =>
      forall i | 0 <= i < |rows| ensures a.characteristics[i] == b.characteristics[i] {
        CharacteristicFixed(conv, t, rows[i], a.characteristics[i], b.characteristics[i]);
      }
      assert a.characteristics == b.characteristics;
      ReferencesFixed(conv, t, rows, a.references, b.references);
  }

  lemma ReferencesFixed(conv: Conventions, t: DocumentType, rows: seq<MappedRow>, a: map<RefTarget, Reference>, b: map<RefTarget, Reference>)
    requires rows != [] && ReferencesHeld(conv, t, rows, a) && ReferencesHeld(conv, t, rows, b)
    ensures a == b
  {
    hide Said;
    if t == InspectionRecord {
      assert ReferencesOfRow(conv, rows[0], a[ToSop], a[ToControlPlan]);
      assert ReferencesOfRow(conv, rows[0], b[ToSop], b[ToControlPlan]);
    }
  }
}

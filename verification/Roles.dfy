/** Field leaves a table can fill, what each row contributes to them, and when a table can be mapped. */
module Roles {
  import opened Json
  import opened Provenance
  import opened Tables

  datatype RefTarget = ToSop | ToControlPlan

  datatype RefLeaf = RefDocumentId | RefRevision | RefDocumentType | RefSourceHash

  /** The scalar leaves of a document's fields. */
  datatype Role =
    | StepRole(index: nat)
    | RiskRole(index: nat, column: Canonical)
    | RiskLocator(index: nat)
    | CharRole(index: nat, column: Canonical)
    | CharLocator(index: nat)
    | RefRole(target: RefTarget, leaf: RefLeaf)

  // ---------- Spelling ----------

  function Name(c: Canonical): string {
    match c
    case ProcessStepId => "process_step_id"
    case FailureModeId => "failure_mode_id"
    case CharacteristicId => "characteristic_id"
    case SpecialCharacteristic => "special_characteristic"
    case Effect => "effect"
    case ControlId => "control_id"
    case Target => "target"
    case Minimum => "minimum"
    case Maximum => "maximum"
    case Unit => "unit"
    case ControlMethod => "control_method"
    case Frequency => "frequency"
    case ReactionPlan => "reaction_plan"
    case SopDocumentId => "sop_document_id"
    case SopRevision => "sop_revision"
    case ControlPlanDocumentId => "control_plan_document_id"
    case ControlPlanRevision => "control_plan_revision"
  }

  function RefName(t: RefTarget): string {
    if t.ToSop? then "SOP" else "CONTROL_PLAN"
  }

  function RefLeafName(l: RefLeaf): string {
    match l
    case RefDocumentId => "document_id"
    case RefRevision => "revision"
    case RefDocumentType => "document_type"
    case RefSourceHash => "source_hash"
  }

  predicate InSpecification(c: Canonical) {
    c.Target? || c.Minimum? || c.Maximum? || c.Unit?
  }

  function PathOf(role: Role): Path {
    match role
    case StepRole(i) => [Key("fields"), Key("process_steps"), At(i)]
    case RiskRole(i, c) => [Key("fields"), Key("risks"), At(i), Key(Name(c))]
    case RiskLocator(i) => [Key("fields"), Key("risks"), At(i), Key("locator")]
    case CharRole(i, c) =>
      if InSpecification(c) then [Key("fields"), Key("characteristics"), At(i), Key("specification"), Key(Name(c))]
      else [Key("fields"), Key("characteristics"), At(i), Key(Name(c))]
    case CharLocator(i) => [Key("fields"), Key("characteristics"), At(i), Key("locator")]
    case RefRole(t, l) => [Key("fields"), Key("references"), Key(RefName(t)), Key(RefLeafName(l))]
  }

  lemma NamesDiffer(c: Canonical, d: Canonical)
    ensures Name(c) == Name(d) ==> c == d
    ensures Name(c) != "locator" && Name(c) != "specification"
  {}

  /** Distinct leaves are spelled differently. */
  lemma PathsDiffer(a: Role, b: Role)
    ensures PathOf(a) == PathOf(b) ==> a == b
  {
    var p, q := PathOf(a), PathOf(b);
    if p == q {
      assert p[1] == q[1] && p[2] == q[2] && |p| == |q|;
      assert |p| > 3 ==> p[3] == q[3];
      assert |p| > 4 ==> p[4] == q[4];
      match a {
        case RiskRole(_, c) =>
          NamesDiffer(c, if b.RiskRole? then b.column else c);
        case CharRole(_, c) =>
          NamesDiffer(c, if b.CharRole? then b.column else c);
        case RiskLocator(_) =>
          if b.RiskRole? { NamesDiffer(b.column, b.column); }
        case CharLocator(_) =>
          if b.CharRole? { NamesDiffer(b.column, b.column); }
        case _ =>
      }
    }
  }

  lemma RowNamesPlain(c: Canonical)
    requires c.ProcessStepId? || c.FailureModeId? || c.CharacteristicId? || c.SpecialCharacteristic? || c.Effect? || c.ControlId?
    ensures Plain(Name(c))
  {}

  lemma ControlNamesPlain(c: Canonical)
    requires InSpecification(c) || c.ControlMethod? || c.Frequency? || c.ReactionPlan?
    ensures Plain(Name(c))
  {}

  lemma ReferenceNamesPlain(c: Canonical)
    requires c.SopDocumentId? || c.SopRevision? || c.ControlPlanDocumentId? || c.ControlPlanRevision?
    ensures Plain(Name(c))
  {}

  lemma NamePlain(c: Canonical)
    ensures Plain(Name(c))
  {
    if c.SopDocumentId? || c.SopRevision? || c.ControlPlanDocumentId? || c.ControlPlanRevision? {
      ReferenceNamesPlain(c);
    } else if InSpecification(c) || c.ControlMethod? || c.Frequency? || c.ReactionPlan? {
      ControlNamesPlain(c);
    } else {
      RowNamesPlain(c);
    }
  }

  lemma PathWritable(role: Role)
    ensures PathOf(role) != [] && PathOf(role)[0].Key? && Writable(PathOf(role))
  {
    FieldNamesPlain();
    hide Plain, Name;
    match role
    case RiskRole(_, c) => NamePlain(c);
    case CharRole(_, c) => NamePlain(c);
    case _ =>
  }

  lemma FieldNamesPlain()
    ensures Plain("fields") && Plain("process_steps") && Plain("risks") && Plain("characteristics") && Plain("references")
    ensures Plain("specification") && Plain("locator") && Plain("SOP") && Plain("CONTROL_PLAN")
    ensures Plain("document_id") && Plain("revision") && Plain("document_type") && Plain("source_hash")
  {}

  // ---------- Reading one row ----------

  /** Everything a build reads: conventions, manifest entry, source hash, mapped table. */
  datatype Context = Context(conv: Conventions, spec: Spec, sourceHash: string, table: MappedTable)

  /** A validated manifest entry with a table `_map_table` produced for it. */
  ghost predicate Sound(ctx: Context) {
    SpecOk(ctx.conv, ctx.spec) && WellFormed(ctx.conv, ctx.spec, ctx.sourceHash, ctx.table)
  }

  predicate HasText(conv: Conventions, row: MappedRow, c: Canonical) {
    c in row.cells && conv.strip(row.cells[c].text) != ""
  }

  function TextAt(conv: Conventions, row: MappedRow, c: Canonical): string
    requires c in row.cells
  {
    conv.strip(row.cells[c].text)
  }

  /** `_parse_number`: an integral float becomes an int. */
  function ParseNumber(conv: Conventions, text: string): Option<Json> {
    match conv.float(conv.strip(text))
    case None => None
    case Some(x) => Some(if x == x.Floor as real then Int(x.Floor) else Real(x))
  }

  /** `_parse_boolean`. */
  function ParseBoolean(conv: Conventions, text: string): Option<Json> {
    var normalized := conv.casefold(conv.strip(text));
    if normalized == "true" then Some(Bool(true)) else if normalized == "false" then Some(Bool(false)) else None
  }

  /** The value a column's cell stands for, if the row has one. */
  function CellValue(conv: Conventions, row: MappedRow, c: Canonical): Option<Json> {
    if !HasText(conv, row, c) then None
    else if c.SpecialCharacteristic? then ParseBoolean(conv, row.cells[c].text)
    else if c.Target? || c.Minimum? || c.Maximum? then ParseNumber(conv, row.cells[c].text)
    else Some(Str(TextAt(conv, row, c)))
  }

  ghost predicate Readable(ctx: Context, row: MappedRow) {
    forall c :: c in ColumnKeys(ctx.spec) ==> CellValue(ctx.conv, row, c).Some?
  }

  predicate IsRefColumn(c: Canonical) {
    c.SopDocumentId? || c.SopRevision? || c.ControlPlanDocumentId? || c.ControlPlanRevision?
  }

  /** Readable apart from the reference columns. */
  ghost predicate BodyReadable(ctx: Context, row: MappedRow) {
    forall c :: c in ColumnKeys(ctx.spec) && !IsRefColumn(c) ==> CellValue(ctx.conv, row, c).Some?
  }

  function CellAt(row: MappedRow, c: Canonical): Cell {
    if c in row.cells then row.cells[c] else Cell(0, 0, "", "", "", "")
  }

  /** `_evidence_source`. */
  function SourceAt(ctx: Context, row: MappedRow, c: Canonical): Source {
    var cell := CellAt(row, c);
    Source(ctx.spec.sourceId, ctx.spec.documentId, cell.sourceHash, cell.locator, cell.kind, cell.row, cell.column,
           if c in ctx.table.headers then ctx.table.headers[c] else "", cell.text)
  }

  // ---------- When a table can be mapped ----------

  function Rows(ctx: Context): seq<MappedRow> {
    ctx.table.rows
  }

  /** A cell's stripped text; empty when the row lacks the cell. */
  function TextOf(ctx: Context, row: MappedRow, c: Canonical): string {
    if c in row.cells then TextAt(ctx.conv, row, c) else ""
  }

  /** `relationship_key` of a row. */
  function RelationOf(ctx: Context, row: MappedRow): (string, string) {
    (ctx.conv.norm(TextOf(ctx, row, ProcessStepId)), ctx.conv.norm(TextOf(ctx, row, CharacteristicId)))
  }

  predicate HasCharacteristics(t: DocumentType) {
    t.ControlPlan? || t.Sop? || t.InspectionRecord?
  }

  /** The identifiers that must not repeat, per document type. */
  ghost predicate RowsApart(ctx: Context, i: nat, j: nat)
    requires i < |Rows(ctx)| && j < |Rows(ctx)|
  {
    var a, b := Rows(ctx)[i], Rows(ctx)[j];
    match ctx.spec.documentType
    case ProcessFlow => TextOf(ctx, a, ProcessStepId) != TextOf(ctx, b, ProcessStepId)
    case Pfmea => TextOf(ctx, a, FailureModeId) != TextOf(ctx, b, FailureModeId)
    case ControlPlan => RelationOf(ctx, a) != RelationOf(ctx, b) && TextOf(ctx, a, ControlId) != TextOf(ctx, b, ControlId)
    case _ => RelationOf(ctx, a) != RelationOf(ctx, b)
  }

  /** The four columns an inspection record's references are read from. */
  function RefColumns(): seq<(Role, Canonical)> {
    [(RefRole(ToSop, RefDocumentId), SopDocumentId), (RefRole(ToSop, RefRevision), SopRevision),
     (RefRole(ToControlPlan, RefDocumentId), ControlPlanDocumentId), (RefRole(ToControlPlan, RefRevision), ControlPlanRevision)]
  }

  ghost predicate SameReferences(ctx: Context, a: MappedRow, b: MappedRow) {
    forall k :: 0 <= k < 4 ==> TextOf(ctx, a, RefColumns()[k].1) == TextOf(ctx, b, RefColumns()[k].1)
  }

  /** The first `n` rows are readable apart from references, and their identifiers differ. */
  ghost predicate BodyPrefix(ctx: Context, n: nat)
    requires n <= |Rows(ctx)|
  {
    && (forall i :: 0 <= i < n ==> BodyReadable(ctx, Rows(ctx)[i]))
    && (forall i, j :: 0 <= i < j < n ==> RowsApart(ctx, i, j))
  }

  ghost predicate MappablePrefix(ctx: Context, n: nat)
    requires n <= |Rows(ctx)|
  {
    && (forall i :: 0 <= i < n ==> Readable(ctx, Rows(ctx)[i]))
    && (forall i, j :: 0 <= i < j < n ==> RowsApart(ctx, i, j))
    && (ctx.spec.documentType.InspectionRecord? ==>
          forall i :: 0 <= i < n ==> SameReferences(ctx, Rows(ctx)[0], Rows(ctx)[i]))
  }

  /** Every row is readable, no identifier repeats, and an inspection's references never vary. */
  ghost predicate Mappable(ctx: Context)
  {
    MappablePrefix(ctx, |Rows(ctx)|)
  }
}

/** The final document and its provenance, read back: each leaf holds what its cell says, and each entry names
    that cell. */
module DocumentReadings {
  import opened Json
  import opened Provenance
  import opened EvidencePlanning
  import opened Tables
  import opened Roles
  import opened Feeds
  import opened Builder
  import opened Agreement
  import opened Closure
  import opened Documents
  import opened PlanBuilder
  import opened HonestClosure
  import opened ClosureTheorem
  import opened CellReadings

  // ---------- Leaves of the final fields ----------

  lemma FlagLeafRead(fields: Fields, registry: map<string, Identity>, i: nat)
    requires fields.RiskFields? && i < |fields.risks|
    ensures ValueAt(FinalFields(fields, registry), [Key("risks"), At(i), Key("special_characteristic")]) == Some(Bool(fields.risks[i].special))
  {
    LeafStored(fields, registry, RiskRole(i, SpecialCharacteristic));
    hide FinalFields;
    assert PathOf(RiskRole(i, SpecialCharacteristic))[1..] == [Key("risks"), At(i), Key("special_characteristic")];
  }

  lemma SpecificationLeafRead(fields: Fields, registry: map<string, Identity>, i: nat, c: Canonical)
    requires fields.CharacteristicFields? && i < |fields.characteristics| && InSpecification(c)
    ensures ValueAt(FinalFields(fields, registry), [Key("characteristics"), At(i), Key("specification")] + [Key(Name(c))])
      == CharacteristicLeaf(fields.characteristics[i], c)
  {
    LeafStored(fields, registry, CharRole(i, c));
    hide FinalFields, CharacteristicLeaf, Name;
    assert LeafValue(fields, registry, CharRole(i, c)) == CharacteristicLeaf(fields.characteristics[i], c);
    assert PathOf(CharRole(i, c))[1..] == [Key("characteristics"), At(i), Key("specification")] + [Key(Name(c))];
  }

  lemma LimitLeafRead(fields: Fields, registry: map<string, Identity>, i: nat)
    requires fields.CharacteristicFields? && i < |fields.characteristics|
    ensures var limits := [Key("characteristics"), At(i), Key("specification")];
      && ValueAt(FinalFields(fields, registry), limits + [Key("target")]) == Some(fields.characteristics[i].target)
      && ValueAt(FinalFields(fields, registry), limits + [Key("minimum")]) == Some(fields.characteristics[i].minimum)
      && ValueAt(FinalFields(fields, registry), limits + [Key("maximum")]) == Some(fields.characteristics[i].maximum)
      && ValueAt(FinalFields(fields, registry), limits + [Key("unit")]) == Some(Str(fields.characteristics[i].unit))
  {
    hide FinalFields, ValueAt;
    SpecificationLeafRead(fields, registry, i, Target);
    SpecificationLeafRead(fields, registry, i, Minimum);
    SpecificationLeafRead(fields, registry, i, Maximum);
    SpecificationLeafRead(fields, registry, i, Unit);
  }

  /** In the final fields a risk is special exactly when its cell says `true`. */
  lemma FlagsRead(ctx: Context, registry: map<string, Identity>, i: nat)
    requires Sound(ctx) && Mappable(ctx) && ctx.spec.documentType == Pfmea && i < |ctx.table.rows|
    ensures ValueAt(FinalFields(FieldsOf(ctx), registry), [Key("risks"), At(i), Key("special_characteristic")])
      == Some(Bool(ctx.conv.casefold(Said(ctx.conv, ctx.table.rows[i], SpecialCharacteristic)) == "true"))
  {
    hide Sound, Mappable, FieldsOf, RiskSaid, Said, FinalFields, StepsSaid;
    FieldsAreSaid(ctx);
    FlagLeafRead(FieldsOf(ctx), registry, i);
    RiskFlag(ctx.conv, MapsEffect(ctx.spec), ctx.table.rows[i], FieldsOf(ctx).risks[i]);
  }

  lemma RiskFlag(conv: Conventions, hasEffect: bool, row: MappedRow, risk: Risk)
    requires RiskSaid(conv, hasEffect, row, risk)
    ensures risk.special == (conv.casefold(Said(conv, row, SpecialCharacteristic)) == "true")
  {}

  /** In the final fields a limit is the number its cell gives, written as an integer exactly when integral. */
  lemma LimitsRead(ctx: Context, registry: map<string, Identity>, i: nat)
    requires Sound(ctx) && Mappable(ctx) && HasCharacteristics(ctx.spec.documentType) && i < |ctx.table.rows|
    ensures var limits := [Key("characteristics"), At(i), Key("specification")];
      && LimitRead(ctx, registry, i, Target, limits + [Key("target")])
      && LimitRead(ctx, registry, i, Minimum, limits + [Key("minimum")])
      && LimitRead(ctx, registry, i, Maximum, limits + [Key("maximum")])
      && ValueAt(FinalFields(FieldsOf(ctx), registry), limits + [Key("unit")]) == Some(Str(Said(ctx.conv, ctx.table.rows[i], Unit)))
  {
    hide Sound, Mappable, FieldsOf, CharacteristicSaid, Said, FinalFields, StepsSaid, LimitSaid;
    FieldsAreSaid(ctx);
    LimitLeafRead(FieldsOf(ctx), registry, i);
    CharacteristicLimits(ctx.conv, ctx.spec.documentType, ctx.table.rows[i], FieldsOf(ctx).characteristics[i]);
  }

  ghost predicate LimitRead(ctx: Context, registry: map<string, Identity>, i: nat, c: Canonical, p: Path)
    requires i < |ctx.table.rows|
  {
    var v := ValueAt(FinalFields(FieldsOf(ctx), registry), p);
    v.Some? && LimitSaid(ctx.conv, ctx.table.rows[i], c, v.value)
  }

  lemma CharacteristicLimits(conv: Conventions, t: DocumentType, row: MappedRow, ch: Characteristic)
    requires CharacteristicSaid(conv, t, row, ch)
    ensures LimitSaid(conv, row, Target, ch.target) && LimitSaid(conv, row, Minimum, ch.minimum) && LimitSaid(conv, row, Maximum, ch.maximum)
    ensures ch.unit == Said(conv, row, Unit)
  {
    hide LimitSaid, Said;
  }

  // ---------- References ----------

  /** The registry's document under the role is the one the inspection names, of the role's type, with a SHA-256 hash
      in lower-case hex. */
  ghost predicate RegistryNames(registry: map<string, Identity>, role: string, id: string, revision: string) {
    && role in registry
    && registry[role] == Identity(role, id, revision, registry[role].sourceHash)
    && |registry[role].sourceHash| == 64
    && forall k :: 0 <= k < 64 ==> registry[role].sourceHash[k] in "0123456789abcdef"
  }

  lemma HexDigit(c: char)
    ensures c in "0123456789abcdef" <==> '0' <= c <= '9' || 'a' <= c <= 'f'
  {
    var digits := "0123456789abcdef";
    assert digits[0] == '0' && digits[1] == '1' && digits[2] == '2' && digits[3] == '3' && digits[4] == '4' && digits[5] == '5';
    assert digits[6] == '6' && digits[7] == '7' && digits[8] == '8' && digits[9] == '9' && digits[10] == 'a' && digits[11] == 'b';
    assert digits[12] == 'c' && digits[13] == 'd' && digits[14] == 'e' && digits[15] == 'f';
  }

  lemma ResolvesIff(r: Reference, role: string, registry: map<string, Identity>)
    ensures ResolvesTo(r, role, registry) <==> RegistryNames(registry, role, r.documentId, r.revision)
  {
    forall c ensures c in "0123456789abcdef" <==> '0' <= c <= '9' || 'a' <= c <= 'f' {
      HexDigit(c);
    }
  }

  /** A document's references can be written exactly when the registry holds both documents its first row names. */
  ghost predicate BothNamed(ctx: Context, registry: map<string, Identity>)
    requires ctx.table.rows != []
  {
    var row := ctx.table.rows[0];
    && RegistryNames(registry, "SOP", Said(ctx.conv, row, SopDocumentId), Said(ctx.conv, row, SopRevision))
    && RegistryNames(registry, "CONTROL_PLAN", Said(ctx.conv, row, ControlPlanDocumentId), Said(ctx.conv, row, ControlPlanRevision))
  }

  /** What the fields hold under one reference. */
  ghost predicate ReferenceAt(fields: Json, role: string, id: string, revision: string, hash: string) {
    && ValueAt(fields, [Key("references"), Key(role), Key("document_id")]) == Some(Str(id))
    && ValueAt(fields, [Key("references"), Key(role), Key("revision")]) == Some(Str(revision))
    && ValueAt(fields, [Key("references"), Key(role), Key("document_type")]) == Some(Str(role))
    && ValueAt(fields, [Key("references"), Key(role), Key("source_hash")]) == Some(Str(hash))
  }

  lemma ReferenceLeavesRead(fields: Fields, registry: map<string, Identity>, t: RefTarget)
    requires HasReferences(fields) && Resolves(fields, registry)
    ensures ReferenceAt(FinalFields(fields, registry), RefName(t), fields.references[t].documentId, fields.references[t].revision,
                        registry[RefName(t)].sourceHash)
  {
    ReferenceLeafRead(fields, registry, t, RefDocumentId);
    ReferenceLeafRead(fields, registry, t, RefRevision);
    ReferenceLeafRead(fields, registry, t, RefDocumentType);
    ReferenceLeafRead(fields, registry, t, RefSourceHash);
    hide FinalFields, ValueAt;
  }

  lemma ReferenceLeafRead(fields: Fields, registry: map<string, Identity>, t: RefTarget, l: RefLeaf)
    requires HasReferences(fields) && Resolves(fields, registry)
    ensures ValueAt(FinalFields(fields, registry), [Key("references"), Key(RefName(t)), Key(RefLeafName(l))])
      == Some(ReferenceLeaf(RefName(t), fields.references[t], registry[RefName(t)], l))
  {
    LeafStored(fields, registry, RefRole(t, l));
    hide FinalFields, ValueAt, RefLeafName, RefName, ReferenceLeaf, ResolvesTo;
    assert PathOf(RefRole(t, l))[1..] == [Key("references"), Key(RefName(t)), Key(RefLeafName(l))];
  }

  /** An inspection record's references are refused exactly when the registry does not hold both named documents, and
      otherwise hold what the cells name with the registry's types and hashes. */
  lemma ReferencesRead(ctx: Context, registry: map<string, Identity>)
    requires Sound(ctx) && Mappable(ctx) && ctx.spec.documentType == InspectionRecord && ctx.table.rows != []
    ensures Complete(FieldsOf(ctx), registry) <==> BothNamed(ctx, registry)
    ensures BothNamed(ctx, registry) ==>
      var row, fields := ctx.table.rows[0], FinalFields(FieldsOf(ctx), registry);
      && ReferenceAt(fields, "SOP", Said(ctx.conv, row, SopDocumentId), Said(ctx.conv, row, SopRevision), registry["SOP"].sourceHash)
      && ReferenceAt(fields, "CONTROL_PLAN", Said(ctx.conv, row, ControlPlanDocumentId), Said(ctx.conv, row, ControlPlanRevision),
                     registry["CONTROL_PLAN"].sourceHash)
  {
    hide Sound, Mappable, FieldsOf, Said, FinalFields, StepsSaid, CharacteristicsSaid, ReferenceAt, RegistryNames, ResolvesTo;
    FieldsAreSaid(ctx);
    var fields := FieldsOf(ctx);
    assert fields.references.Keys == {ToSop, ToControlPlan};
    assert ReferencesOfRow(ctx.conv, ctx.table.rows[0], fields.references[ToSop], fields.references[ToControlPlan]);
    ResolvesIff(fields.references[ToSop], "SOP", registry);
    ResolvesIff(fields.references[ToControlPlan], "CONTROL_PLAN", registry);
    if BothNamed(ctx, registry) {
      ReferenceLeavesRead(fields, registry, ToSop);
      ReferenceLeavesRead(fields, registry, ToControlPlan);
    }
  }

  // ---------- Provenance entries ----------

  /** The source an entry should give for a cell: the file, the cell's place and its text as parsed. */
  ghost predicate NamesCell(ctx: Context, row: MappedRow, c: Canonical, source: Source) {
    && source.sourceId == ctx.spec.sourceId && source.documentId == ctx.spec.documentId
    && c in row.cells
    && var cell := row.cells[c];
       && source.sourceHash == cell.sourceHash == ctx.sourceHash && source.locator == cell.locator && source.kind == cell.kind
       && source.row == cell.row == row.number && source.column == cell.column && source.rawValue == cell.text
       && c in ctx.table.headers && source.header == ctx.table.headers[c]
  }

  lemma SourceNamesCell(ctx: Context, row: MappedRow, c: Canonical)
    requires WellFormed(ctx.conv, ctx.spec, ctx.sourceHash, ctx.table) && row in ctx.table.rows
    requires c in ColumnKeys(ctx.spec) && c in row.cells
    ensures NamesCell(ctx, row, c, SourceAt(ctx, row, c))
  {
    assert RowWellFormed(ctx.conv, ctx.spec, ctx.sourceHash, row);
    assert CellWellFormed(ctx.conv, ctx.sourceHash, row.number, row.cells[c]);
  }

  lemma ColumnOfPair(ctx: Context, i: nat, p: Pair)
    requires Sound(ctx) && Mappable(ctx) && i < |Rows(ctx)| && PairOfRow(ctx, i, p)
    ensures p.1 in ColumnKeys(ctx.spec) && p.1 in Rows(ctx)[i].cells
    ensures Means(ctx.conv, Rows(ctx)[i], p.1, ValueOf(ctx, Rows(ctx)[i], p.1))
    ensures NamesCell(ctx, Rows(ctx)[i], p.1, SourceAt(ctx, Rows(ctx)[i], p.1))
  {
    PairColumn(ctx, i, p);
    CellRead(ctx.conv, Rows(ctx)[i], p.1, ValueOf(ctx, Rows(ctx)[i], p.1));
    hide Mappable, RowPairs, RefPairs, PairOfRow, CellValue, WellFormed, SpecOk, ColumnKeys, Means, NamesCell, SourceAt;
    SourceNamesCell(ctx, Rows(ctx)[i], p.1);
  }

  /** Every cell an entry lists is named truly, and the entry's value is what its first cell says. */
  lemma EntryCellsRead(ctx: Context, entries: seq<Entry>, e: Entry, k: nat) returns (i: nat, c: Canonical)
    requires Sound(ctx) && Mappable(ctx) && IsProvenance(ctx, entries) && e in entries && !e.DerivedLocator? && k < |EntrySources(e)|
    ensures i < |ctx.table.rows| && NamesCell(ctx, ctx.table.rows[i], c, EntrySources(e)[k])
    ensures k == 0 ==> Means(ctx.conv, ctx.table.rows[i], c, e.value)
  {
    hide Sound, Mappable, PathOf, EntrySources, NamesCell, Means, SourceAt, ValueOf, CellEntry, PairOfRow;
    ListedExpected(ctx, entries, e);
    LocatorKind(ctx, e);
    var p;
    i, p := SourceFrom(ctx, e, k);
    ColumnOfPair(ctx, i, p);
    c := p.1;
  }

  lemma LocatorKind(ctx: Context, e: Entry)
    ensures LocatorOf(ctx, e, |Rows(ctx)|) ==> e.DerivedLocator?
  {}

  /** Each leaf of a risk or characteristic has its own entry: one cell, the value the cell says. */
  lemma OwnEntryRead(ctx: Context, entries: seq<Entry>, i: nat, k: nat) returns (e: Entry)
    requires Sound(ctx) && Mappable(ctx) && IsProvenance(ctx, entries) && i < |Rows(ctx)| && 0 < k < |RowPairs(ctx, i)|
    ensures e in entries && e.Direct? && e.target == PathOf(RowPairs(ctx, i)[k].0)
    ensures Means(ctx.conv, Rows(ctx)[i], RowPairs(ctx, i)[k].1, e.value)
    ensures NamesCell(ctx, Rows(ctx)[i], RowPairs(ctx, i)[k].1, e.source)
  {
    hide Sound, Mappable, PlanFeeds, Contributors, RowPairs, RefPairs, NamesCell, SourceAt, ValueOf, ColumnKeys, PathOf, Means, LocatorOf;
    var p := RowPairs(ctx, i)[k];
    e := DirectEntry(FeedAt(ctx, Rows(ctx)[i], p));
    OwnLeafGroup(ctx, |Rows(ctx)|, i, k);
    assert CellEntry(ctx, e);
    ListedExpected(ctx, entries, e);
    assert p in RowPairs(ctx, i);
    ColumnOfPair(ctx, i, p);
  }

  /** A risk's flag has its own entry: one cell, the flag the cell says. */
  lemma FlagEntryRead(ctx: Context, entries: seq<Entry>, i: nat) returns (e: Entry)
    requires Sound(ctx) && Mappable(ctx) && IsProvenance(ctx, entries) && ctx.spec.documentType == Pfmea && i < |Rows(ctx)|
    ensures e in entries && e.Direct? && e.target == [Key("fields"), Key("risks"), At(i), Key("special_characteristic")]
    ensures e.value == Bool(ctx.conv.casefold(Said(ctx.conv, Rows(ctx)[i], SpecialCharacteristic)) == "true")
    ensures NamesCell(ctx, Rows(ctx)[i], SpecialCharacteristic, e.source)
  {
    hide Sound, Mappable, IsProvenance, RowPairs, NamesCell, Said;
    FlagPlace(ctx, i);
    e := OwnEntryRead(ctx, entries, i, 4);
  }

  lemma FlagPlace(ctx: Context, i: nat)
    requires ctx.spec.documentType == Pfmea && i < |Rows(ctx)|
    ensures |RowPairs(ctx, i)| > 4 && RowPairs(ctx, i)[4] == (RiskRole(i, SpecialCharacteristic), SpecialCharacteristic)
  {
    hide StepIndex;
  }

  /** One cell under the conversion contract, or several in row order under both contracts, or a locator. */
  ghost predicate WellMade(e: Entry) {
    match e
    case Direct(_, _, _, conversion) => conversion == "qualityci-mapping-value-conversion-0.1"
    case Aggregate(_, _, sources, aggregation, conversion) =>
      && |sources| >= 2 && (forall i, j :: 0 <= i < j < |sources| ==> sources[i].row < sources[j].row)
      && aggregation == "qualityci-identical-value-aggregate-0.1" && conversion == "qualityci-mapping-value-conversion-0.1"
    case DerivedLocator(_, _, _, _, derivation) => derivation == "qualityci-derived-locator-0.1"
    case ReferenceIdentity(_, _, _, _, _, _, _) => false
  }

  lemma GroupWellMade(group: seq<Feed>)
    requires group != [] && RowsAscend(group)
    ensures WellMade(Finalized(GroupEntry(group)))
  {
    var e := Finalized(GroupEntry(group));
    GroupSources(group);
    if |group| > 1 {
      assert EntrySources(e) == SourcesOf(group);
    }
  }

  /** Every entry of a document's provenance is of one of the three forms. */
  lemma EntriesWellMade(ctx: Context, entries: seq<Entry>, e: Entry)
    requires Sound(ctx) && Mappable(ctx) && IsProvenance(ctx, entries) && e in entries
    ensures WellMade(e)
  {
    hide Sound, Mappable, PathOf, SourceAt, PlanFeeds, Contributors, WellMade, GroupEntry, Finalized, RowsAscend;
    ListedExpected(ctx, entries, e);
    if CellEntry(ctx, e) {
      GroupAscends(ctx, |Rows(ctx)|, e.target);
      GroupWellMade(Contributors(PlanFeeds(ctx, |Rows(ctx)|), e.target));
    } else {
      var i: nat :| i < |Rows(ctx)| && e == LocatorEntry(ctx, i);
      LocatorWellMade(ctx, i);
    }
  }

  lemma LocatorWellMade(ctx: Context, i: nat)
    requires i < |Rows(ctx)|
    ensures WellMade(LocatorEntry(ctx, i))
  {
    hide PathOf, SourceAt;
  }

  /** A row's locator entry copies the locator of the row's anchor cell and names that cell and the anchor leaf. */
  ghost predicate LocatorEntryOf(ctx: Context, row: MappedRow, e: Entry, list: string, i: nat, anchor: Canonical, name: string) {
    && e.DerivedLocator? && anchor in row.cells
    && e.target == [Key("fields"), Key(list), At(i), Key("locator")] && e.anchor == [Key("fields"), Key(list), At(i), Key(name)]
    && e.value == Str(row.cells[anchor].locator) && NamesCell(ctx, row, anchor, e.source)
  }

  lemma LocatorEntryIs(ctx: Context, i: nat)
    requires i < |Rows(ctx)| && ctx.spec.documentType != ProcessFlow && AnchorColumn(ctx) in Rows(ctx)[i].cells
    requires NamesCell(ctx, Rows(ctx)[i], AnchorColumn(ctx), SourceAt(ctx, Rows(ctx)[i], AnchorColumn(ctx)))
    ensures ctx.spec.documentType == Pfmea ==>
      LocatorEntryOf(ctx, Rows(ctx)[i], LocatorEntry(ctx, i), "risks", i, FailureModeId, "failure_mode_id")
    ensures ctx.spec.documentType != Pfmea ==>
      LocatorEntryOf(ctx, Rows(ctx)[i], LocatorEntry(ctx, i), "characteristics", i, CharacteristicId, "characteristic_id")
  {
    hide NamesCell, SourceAt;
  }

  lemma AnchorRead(ctx: Context, i: nat)
    requires Sound(ctx) && Mappable(ctx) && i < |Rows(ctx)| && ctx.spec.documentType != ProcessFlow
    ensures AnchorColumn(ctx) in Rows(ctx)[i].cells
    ensures NamesCell(ctx, Rows(ctx)[i], AnchorColumn(ctx), SourceAt(ctx, Rows(ctx)[i], AnchorColumn(ctx)))
  {
    AnchorPosition(ctx, i);
    hide Sound, Mappable, RowPairs, RefPairs, NamesCell, SourceAt, ColumnKeys, AnchorColumn, AnchorRole, Means;
    var k :| 0 < k < |RowPairs(ctx, i)| && RowPairs(ctx, i)[k] == (AnchorRole(ctx, i), AnchorColumn(ctx));
    assert RowPairs(ctx, i)[k] in RowPairs(ctx, i);
    ColumnOfPair(ctx, i, (AnchorRole(ctx, i), AnchorColumn(ctx)));
  }

  lemma LocatorEntryRead(ctx: Context, entries: seq<Entry>, i: nat) returns (e: Entry)
    requires Sound(ctx) && Mappable(ctx) && IsProvenance(ctx, entries) && i < |Rows(ctx)| && ctx.spec.documentType != ProcessFlow
    ensures e in entries
    ensures ctx.spec.documentType == Pfmea ==> LocatorEntryOf(ctx, Rows(ctx)[i], e, "risks", i, FailureModeId, "failure_mode_id")
    ensures ctx.spec.documentType != Pfmea ==> LocatorEntryOf(ctx, Rows(ctx)[i], e, "characteristics", i, CharacteristicId, "characteristic_id")
  {
    hide Sound, Mappable, CellEntry, NamesCell, LocatorEntryOf, SourceAt, AnchorColumn;
    e := LocatorEntry(ctx, i);
    AnchorRead(ctx, i);
    LocatorEntryIs(ctx, i);
    hide LocatorEntry;
    ListedExpected(ctx, entries, e);
  }
}

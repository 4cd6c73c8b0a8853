/** Version migration and fail-closed evaluation: no Case that had to be migrated from v0.1 or v0.2 can pass. */
module Migration {
  import opened Json
  import Relations
  import opened RelationRules

  const V01 := "qualityci-case-0.1"
  const V02 := "qualityci-case-0.2"
  const V03 := "qualityci-case-0.3"
  const V04 := "qualityci-case-0.4"
  const REFERENCE_CONTRACT := "qualityci-controlled-reference-0.1"

  // ---------- Members ----------

  function With(j: Json, name: string, value: Json): Json
    requires j.Obj?
  {
    Obj(j.members[name := value])
  }

  function Version(theCase: Json): Json {
    if Get(theCase, "schema_version").Some? then Get(theCase, "schema_version").value else Str(V01)
  }

  function DocumentsOf(theCase: Json): seq<Json> {
    match Get(theCase, "documents")
    case Some(Arr(items)) => items
    case _ => []
  }

  predicate IsInspection(document: Json) {
    document.Obj? && Get(document, "document_type") == Some(Str("INSPECTION_RECORD"))
  }

  function FieldsOf(document: Json): Option<Json> {
    match Get(document, "fields")
    case Some(fields) => if fields.Obj? then Some(fields) else None
    case None => None
  }

  /** A member that is absent or null reads as None. */
  function Present(j: Json, name: string): Option<Json> {
    match Get(j, name)
    case Some(Null) => None
    case r => r
  }

  function References(document: Json): Option<Json> {
    match FieldsOf(document)
    case None => None
    case Some(fields) => Present(fields, "references")
  }

  /** What a Python `for` loop runs over; null, booleans and numbers raise. An absent member reads as no items. */
  predicate Iterable(member: Option<Json>) {
    member.None? || member.value.Arr? || member.value.Obj? || member.value.Str?
  }

  // ---------- v0.2 to v0.3 ----------

  /** Revision-only references: nonblank roles, text revisions. */
  predicate RevisionOnly(strip: string -> string, references: Json) {
    references.Obj? && forall k :: k in references.members ==> strip(k) != "" && references.members[k].Str?
  }

  /** One inspection record: marked, and its references moved under the untrusted key. */
  function MigratedInspection(strip: string -> string, document: Json): Option<Json>
    requires IsInspection(document)
  {
    var marked := With(document, "reference_contract_version", Str(REFERENCE_CONTRACT));
    match FieldsOf(document)
    case None => Some(marked)
    case Some(fields) =>
      match References(document)
      case None => Some(marked)
      case Some(references) =>
        if !RevisionOnly(strip, references) then None
        else Some(With(marked, "fields", With(fields, "references", Obj(map["LEGACY_UNATTESTED" := references]))))
  }

  /** Every inspection record is migrated, every other document unchanged. */
  ghost predicate InspectionsMigrated(strip: string -> string, before: seq<Json>, after: seq<Json>) {
    && |after| == |before|
    && forall k :: 0 <= k < |before| ==>
      if IsInspection(before[k]) then MigratedInspection(strip, before[k]) == Some(after[k]) else after[k] == before[k]
  }

  function Marker(source: string, target: string, status: string): Json {
    Obj(map["source_schema_version" := Str(source), "target_schema_version" := Str(target), "status" := Str(status)])
  }

  predicate Migratable(strip: string -> string, document: Json) {
    IsInspection(document) ==> MigratedInspection(strip, document).Some?
  }

  function MigratedDocument(strip: string -> string, document: Json): Json
    requires Migratable(strip, document)
  {
    if IsInspection(document) then MigratedInspection(strip, document).value else document
  }

  function MigratedDocuments(strip: string -> string, documents: seq<Json>): (r: seq<Json>)
    requires forall k :: 0 <= k < |documents| ==> Migratable(strip, documents[k])
    ensures InspectionsMigrated(strip, documents, r)
  {
    seq(|documents|, k requires 0 <= k < |documents| && Migratable(strip, documents[k]) => MigratedDocument(strip, documents[k]))
  }

  function MigratedReferences(strip: string -> string, theCase: Json): Option<Json>
    requires theCase.Obj?
  {
    var documents := DocumentsOf(theCase);
    if !Iterable(Get(theCase, "documents")) || exists k :: 0 <= k < |documents| && !Migratable(strip, documents[k]) then None
    else
      var migrated := MigratedDocuments(strip, documents);
      var moved := if Get(theCase, "documents").Some? && Get(theCase, "documents").value.Arr? then With(theCase, "documents", Arr(migrated)) else theCase;
      Some(With(With(moved, "schema_version", Str(V03)), "reference_migration", Marker(V02, V03, "LEGACY_UNATTESTED")))
  }

  lemma MigrationIsUnique(strip: string -> string, documents: seq<Json>, migrated: seq<Json>)
    requires InspectionsMigrated(strip, documents, migrated)
    ensures forall k :: 0 <= k < |documents| ==> Migratable(strip, documents[k])
    ensures migrated == MigratedDocuments(strip, documents)
  {
    hide MigratedInspection;
    forall k | 0 <= k < |documents| ensures Migratable(strip, documents[k]) {
      assert migrated[k] == migrated[k];
    }
  }

  /** `_migrate_v02_references`. */
  method MigrateReferences(strip: string -> string, theCase: Json) returns (r: Option<Json>)
    requires theCase.Obj? && Version(theCase) == Str(V02)
    ensures r == MigratedReferences(strip, theCase)
    ensures r.Some? <==> Iterable(Get(theCase, "documents")) && forall k :: 0 <= k < |DocumentsOf(theCase)| ==> Migratable(strip, DocumentsOf(theCase)[k])
    ensures r.Some? ==>
      && r.value.Obj? && Version(r.value) == Str(V03)
      && InspectionsMigrated(strip, DocumentsOf(theCase), DocumentsOf(r.value))
      && Get(r.value, "reference_migration") == Some(Marker(V02, V03, "LEGACY_UNATTESTED"))
      && forall name :: name !in {"documents", "schema_version", "reference_migration"} ==> Get(r.value, name) == Get(theCase, name)
  {
    hide MigratedInspection;
    if !Iterable(Get(theCase, "documents")) {
      return None;
    }
    var documents := DocumentsOf(theCase);
    var migrated: seq<Json> := [];
    var k := 0;
    while k < |documents|
      invariant 0 <= k <= |documents| && InspectionsMigrated(strip, documents[..k], migrated)
    {
      if IsInspection(documents[k]) {
        var one := MigratedInspection(strip, documents[k]);
        if one.None? {
          assert !Migratable(strip, documents[k]);
          return None;
        }
        migrated := migrated + [one.value];
      } else {
        migrated := migrated + [documents[k]];
      }
      k := k + 1;
    }
    assert documents[..k] == documents;
    MigrationIsUnique(strip, documents, migrated);
    var moved := if Get(theCase, "documents").Some? && Get(theCase, "documents").value.Arr? then With(theCase, "documents", Arr(migrated)) else theCase;
    return Some(With(With(moved, "schema_version", Str(V03)), "reference_migration", Marker(V02, V03, "LEGACY_UNATTESTED")));
  }

  // ---------- v0.3 to v0.4 ----------

  /** `_migrate_v03_validation`. */
  function MigratedValidation(theCase: Json): (r: Json)
    requires theCase.Obj?
    ensures r.Obj? && Version(r) == Str(V04) && Get(r, "validation_migration") == Some(Marker(V03, V04, "LEGACY_UNATTESTED"))
    ensures forall name :: name !in {"schema_version", "validation_migration"} ==> Get(r, name) == Get(theCase, name)
  {
    With(With(theCase, "schema_version", Str(V04)), "validation_migration", Marker(V03, V04, "LEGACY_UNATTESTED"))
  }

  // ---------- v0.1 to v0.2 ----------

  function ItemsOf(document: Json, collection: string): seq<Json> {
    match FieldsOf(document)
    case None => []
    case Some(fields) =>
      match Get(fields, collection)
      case Some(Arr(items)) => items
      case _ => []
  }

  predicate RelationshipRow(item: Json) {
    item.Obj? && ("process_step_id" in item.members || "control_id" in item.members)
  }

  /** Some risk or characteristic row already carries v0.2 members. */
  predicate HasRelationshipRow(document: Json) {
    || (exists k :: 0 <= k < |ItemsOf(document, "risks")| && RelationshipRow(ItemsOf(document, "risks")[k]))
    || (exists k :: 0 <= k < |ItemsOf(document, "characteristics")| && RelationshipRow(ItemsOf(document, "characteristics")[k]))
  }

  /** A null or numeric row list raises where the rows are looked through. */
  predicate RowsIterable(document: Json) {
    match FieldsOf(document)
    case None => true
    case Some(fields) => Iterable(Get(fields, "risks")) && Iterable(Get(fields, "characteristics"))
  }

  function OnlyText(strip: string -> string, list: Option<Json>): Option<string> {
    match list
    case Some(Arr(items)) =>
      if |items| == 1 && items[0].Str? && strip(items[0].s) != "" then Some(items[0].s) else None
    case _ => None
  }

  /** The relationship part of `migrate_legacy_relationships` on a v0.1 Case with an event. */
  function MigratedRelationships(strip: string -> string, theCase: Json, event: Json): (r: Option<Json>)
    requires theCase.Obj? && event.Obj? && Get(theCase, "event") == Some(event)
    ensures r.Some? ==> r.value.Obj? && Version(r.value) == Str(V02) && DocumentsOf(r.value) == DocumentsOf(theCase)
    ensures r.Some? ==> forall k :: 0 <= k < |DocumentsOf(theCase)| ==> !HasRelationshipRow(DocumentsOf(theCase)[k])
    ensures r.Some? ==>
      || Get(r.value, "relationship_migration") == Some(Marker(V01, V02, "DETERMINISTIC_1X1"))
      || Get(r.value, "relationship_migration") == Some(Marker(V01, V02, "AMBIGUOUS"))
  {
    var documents := DocumentsOf(theCase);
    if "affected_links" in event.members || !Iterable(Get(theCase, "documents"))
      || (exists k :: 0 <= k < |documents| && (HasRelationshipRow(documents[k]) || !RowsIterable(documents[k]))) then None
    else
      var step, characteristic := OnlyText(strip, Get(event, "affected_process_steps")), OnlyText(strip, Get(event, "affected_characteristics"));
      var versioned := With(theCase, "schema_version", Str(V02));
      if step.Some? && characteristic.Some? then
        var link := Obj(map["process_step_id" := Str(step.value), "characteristic_id" := Str(characteristic.value)]);
        Some(With(With(versioned, "event", With(event, "affected_links", Arr([link]))), "relationship_migration", Marker(V01, V02, "DETERMINISTIC_1X1")))
      else Some(With(versioned, "relationship_migration", Marker(V01, V02, "AMBIGUOUS")))
  }

  // ---------- Preparing a Case ----------

  /** The validator, left uninterpreted; it accepts only v0.4 Cases. */
  datatype Rules = Rules(strip: string -> string, valid: Json -> bool)

  ghost predicate CurrentOnly(rules: Rules) {
    forall c :: rules.valid(c) ==> c.Obj? && Get(c, "schema_version") == Some(Str(V04))
  }

  /** The last two migrations, in version order. */
  function MigratedLater(strip: string -> string, theCase: Json): Option<Json>
    requires theCase.Obj?
  {
    match MigratedReferences(strip, theCase)
    case Some(referenced) => if referenced.Obj? then Some(MigratedValidation(referenced)) else None
    case None => None
  }

  /** The version chain a Case enters at its own version; None where migration raises. */
  function MigratedCase(strip: string -> string, theCase: Json): Option<Json>
    requires theCase.Obj?
  {
    var version := Version(theCase);
    if version == Str(V04) then Some(theCase)
    else if version == Str(V03) then Some(MigratedValidation(theCase))
    else if version == Str(V02) then MigratedLater(strip, theCase)
    else if version != Str(V01) then None
    else
      match Get(theCase, "event")
      case None => Some(theCase)
      case Some(event) =>
        if !event.Obj? then Some(theCase)
        else
          match MigratedRelationships(strip, theCase, event)
          case None => None
          case Some(relational) => MigratedLater(strip, relational)
  }

  /** `migrate_legacy_relationships`. */
  method Migrate(rules: Rules, theCase: Json) returns (r: Option<Json>)
    requires theCase.Obj?
    ensures r == MigratedCase(rules.strip, theCase)
    ensures Version(theCase) == Str(V04) ==> r == Some(theCase)
    ensures r.Some? && Version(theCase) == Str(V03) ==> r.value == MigratedValidation(theCase)
    ensures r.Some? && r.value.Obj? && Version(r.value) == Str(V04) && Version(theCase) == Str(V02) ==> FromV02(rules, theCase, r.value)
    ensures r.Some? && r.value.Obj? && Version(r.value) == Str(V04) && Version(theCase) == Str(V01) ==> FromV01(rules, theCase, r.value)
    ensures Version(theCase) !in {Str(V01), Str(V02), Str(V03), Str(V04)} ==> r.None?
  {
    hide MigratedInspection, MigratedRelationships, MigratedReferences;
    var version := Version(theCase);
    VersionsDiffer();
    if version == Str(V04) {
      return Some(theCase);
    }
    if version == Str(V03) {
      return Some(MigratedValidation(theCase));
    }
    var relational := Some(theCase);
    if version != Str(V02) {
      if version != Str(V01) {
        return None;
      }
      var event := Get(theCase, "event");
      if event.None? || !event.value.Obj? {
        return Some(theCase);
      }
      relational := MigratedRelationships(rules.strip, theCase, event.value);
      if relational.None? {
        return None;
      }
    }
    var referenced := MigrateReferences(rules.strip, relational.value);
    if referenced.None? {
      return None;
    }
    var validated := MigratedValidation(referenced.value);
    assert Get(validated, "documents") == Get(referenced.value, "documents");
    return Some(validated);
  }

  lemma VersionsDiffer()
    ensures V01 != V02 && V01 != V03 && V01 != V04 && V02 != V03 && V02 != V04 && V03 != V04
  {
    assert V01[17] == '1' && V02[17] == '2' && V03[17] == '3' && V04[17] == '4';
  }

  /** What a v0.2 Case is migrated to: references distrusted, two chained markers. */
  ghost predicate FromV02(rules: Rules, before: Json, after: Json) {
    && InspectionsMigrated(rules.strip, DocumentsOf(before), DocumentsOf(after))
    && Get(after, "reference_migration") == Some(Marker(V02, V03, "LEGACY_UNATTESTED"))
    && Get(after, "validation_migration") == Some(Marker(V03, V04, "LEGACY_UNATTESTED"))
  }

  /** What a v0.1 Case is migrated to: besides, no row has a relationship and the chain starts at v0.1. */
  ghost predicate FromV01(rules: Rules, before: Json, after: Json) {
    && FromV02(rules, before, after)
    && (forall k :: 0 <= k < |DocumentsOf(before)| ==> !HasRelationshipRow(DocumentsOf(before)[k]))
    && (Get(after, "relationship_migration") == Some(Marker(V01, V02, "DETERMINISTIC_1X1"))
        || Get(after, "relationship_migration") == Some(Marker(V01, V02, "AMBIGUOUS")))
  }

  /** `prepare_case`. */
  method PrepareCase(rules: Rules, theCase: Json) returns (r: Option<Json>)
    requires theCase.Obj? && CurrentOnly(rules)
    ensures r.Some? <==> MigratedCase(rules.strip, theCase).Some? && rules.valid(MigratedCase(rules.strip, theCase).value)
    ensures r.Some? ==> r == MigratedCase(rules.strip, theCase) && r.value.Obj? && Version(r.value) == Str(V04)
    ensures rules.valid(theCase) ==> r == Some(theCase)
    ensures r.Some? && Version(theCase) == Str(V02) ==> FromV02(rules, theCase, r.value)
    ensures r.Some? && Version(theCase) == Str(V01) ==> FromV01(rules, theCase, r.value)
  {
    hide MigratedCase;
    VersionsDiffer();
    var migrated := Migrate(rules, theCase);
    if migrated.None? || !rules.valid(migrated.value) {
      return None;
    }
    return migrated;
  }

  /** Preparing an already prepared Case changes nothing. */
  method PrepareTwice(rules: Rules, theCase: Json) returns (once: Option<Json>, twice: Option<Json>)
    requires theCase.Obj? && CurrentOnly(rules)
    ensures once.Some? <==> MigratedCase(rules.strip, theCase).Some? && rules.valid(MigratedCase(rules.strip, theCase).value)
    ensures once.Some? ==> once == MigratedCase(rules.strip, theCase)
    ensures twice == once
  {
    once := PrepareCase(rules, theCase);
    twice := None;
    if once.Some? {
      twice := PrepareCase(rules, once.value);
    }
  }

  // ---------- R005 on a migrated Case ----------

  predicate Approved(document: Json, kind: string) {
    Get(document, "document_type") == Some(Str(kind)) && Get(document, "status") == Some(Str("APPROVED"))
  }

  /** `document_by_type`: the approved document, when there is exactly one. */
  function ApprovedCount(documents: seq<Json>, kind: string): nat {
    if documents == [] then 0
    else ApprovedCount(documents[..|documents| - 1], kind) + (if Approved(documents[|documents| - 1], kind) then 1 else 0)
  }

  function LastApproved(documents: seq<Json>, kind: string): (r: Option<Json>)
    ensures r.Some? ==> r.value in documents && Approved(r.value, kind)
  {
    if documents == [] then None
    else if Approved(documents[|documents| - 1], kind) then Some(documents[|documents| - 1])
    else LastApproved(documents[..|documents| - 1], kind)
  }

  function DocumentByType(theCase: Json, kind: string): (r: Option<Json>)
    ensures r.Some? ==> r.value in DocumentsOf(theCase) && Approved(r.value, kind)
  {
    if ApprovedCount(DocumentsOf(theCase), kind) == 1 then LastApproved(DocumentsOf(theCase), kind) else None
  }

  /** Sealed reference facts; `matches` is the field-by-field comparison with the inspection and its targets. */
  datatype ReferenceContext = ReferenceContext(matches: Json -> bool)

  /** `rule_inspection_current_references`. */
  function InspectionReferenceStatus(theCase: Json, context: Option<ReferenceContext>): Status {
    var inspection := DocumentByType(theCase, "INSPECTION_RECORD");
    if inspection.None? || DocumentByType(theCase, "SOP").None? || DocumentByType(theCase, "CONTROL_PLAN").None? then UNVERIFIABLE
    else
      var references := References(inspection.value);
      if references.None? || !references.value.Obj? then UNVERIFIABLE
      else if references.value.members.Keys == {"LEGACY_UNATTESTED"} then UNVERIFIABLE
      else if !({"SOP", "CONTROL_PLAN"} <= references.value.members.Keys) || context.None? then UNVERIFIABLE
      else if references.value.members.Keys == {"SOP", "CONTROL_PLAN"} && context.value.matches(theCase) then PASS
      else CONTRADICTED
  }

  lemma InspectionAfterMigration(strip: string -> string, document: Json, after: Json)
    requires IsInspection(document) && MigratedInspection(strip, document) == Some(after)
    ensures References(after).None? || References(after).value == Obj(map["LEGACY_UNATTESTED" := References(document).value])
    ensures References(after).Some? ==> References(document).Some?
    ensures Get(after, "document_type") == Get(document, "document_type")
  {}

  /** No sealed context makes a migrated inspection record's references pass. */
  lemma MigratedReferencesUnverifiable(rules: Rules, before: Json, after: Json, context: Option<ReferenceContext>)
    requires FromV02(rules, before, after)
    ensures InspectionReferenceStatus(after, context).UNVERIFIABLE?
  {
    var inspection := DocumentByType(after, "INSPECTION_RECORD");
    if inspection.Some? {
      var k :| 0 <= k < |DocumentsOf(after)| && DocumentsOf(after)[k] == inspection.value;
      var document := DocumentsOf(before)[k];
      if IsInspection(document) {
        InspectionAfterMigration(rules.strip, document, inspection.value);
      } else {
        NotAnInspection(document);
      }
    }
  }

  /** A document of inspection type that is not an object has no fields. */
  lemma NotAnInspection(document: Json)
    requires !IsInspection(document)
    ensures !Approved(document, "INSPECTION_RECORD")
  {}

  // ---------- R001 on a migrated Case ----------

  function OptionText(item: Json, name: string): Option<string> {
    match Get(item, name)
    case Some(Str(s)) => Some(s)
    case _ => None
  }

  function RowOf(item: Json): Relations.Row {
    Relations.Row(OptionText(item, "process_step_id"), if OptionText(item, "characteristic_id").Some? then OptionText(item, "characteristic_id").value else "",
                  OptionText(item, "control_id"), Get(item, "specification"), Get(item, "special_characteristic") == Some(Bool(true)),
                  OptionText(item, "control_method"), OptionText(item, "frequency"), OptionText(item, "reaction_plan"))
  }

  function RowsOf(items: seq<Json>): (r: seq<Relations.Row>)
    ensures |r| == |items| && forall k :: 0 <= k < |r| ==> r[k] == RowOf(items[k])
  {
    seq(|items|, k requires 0 <= k < |items| => RowOf(items[k]))
  }

  function TextsOf(items: seq<Json>): seq<string> {
    if items == [] then [] else TextsOf(items[..|items| - 1]) + (if items[|items| - 1].Str? then [items[|items| - 1].s] else [])
  }

  function RuleDocument(theCase: Json, kind: string, collection: string): Option<Relations.Document> {
    match DocumentByType(theCase, kind)
    case None => None
    case Some(d) => Some(Relations.Document(TextsOf(ItemsOf(d, "process_steps")), RowsOf(ItemsOf(d, collection))))
  }

  /** The rules' view of a Case; the impact plan is handed in. */
  function SubjectOf(theCase: Json, steps: seq<string>, characteristics: seq<string>, links: seq<Relations.Pair>): Subject {
    Subject(RuleDocument(theCase, "PROCESS_FLOW", "risks"), RuleDocument(theCase, "PFMEA", "risks"), RuleDocument(theCase, "CONTROL_PLAN", "characteristics"),
            RuleDocument(theCase, "SOP", "characteristics"), RuleDocument(theCase, "INSPECTION_RECORD", "characteristics"),
            Get(theCase, "relationship_migration").Some?, steps, characteristics, links)
  }

  lemma PlainRowUnbound(item: Json)
    requires !RelationshipRow(item)
    ensures RowOf(item).step.None?
  {}

  lemma PlainDocument(document: Json, after: Json, collection: string)
    requires !HasRelationshipRow(document) && (collection == "risks" || collection == "characteristics")
    requires ItemsOf(after, collection) == ItemsOf(document, collection)
    ensures forall k :: 0 <= k < |ItemsOf(after, collection)| ==> RowOf(ItemsOf(after, collection)[k]).step.None?
  {
    forall k | 0 <= k < |ItemsOf(after, collection)| ensures RowOf(ItemsOf(after, collection)[k]).step.None? {
      assert !RelationshipRow(ItemsOf(document, collection)[k]);
      PlainRowUnbound(ItemsOf(document, collection)[k]);
    }
  }

  /** The control plan of a Case migrated from v0.1 binds no row to a step. */
  lemma ControlPlanUnbound(rules: Rules, before: Json, after: Json, document: Json)
    requires FromV01(rules, before, after) && document in DocumentsOf(after) && Approved(document, "CONTROL_PLAN")
    ensures forall k :: 0 <= k < |ItemsOf(document, "characteristics")| ==> RowOf(ItemsOf(document, "characteristics")[k]).step.None?
  {
    hide MigratedInspection;
    var k :| 0 <= k < |DocumentsOf(after)| && DocumentsOf(after)[k] == document;
    var original := DocumentsOf(before)[k];
    if IsInspection(original) {
      InspectionKeepsType(rules.strip, original, document);
      ControlPlanIsNoInspection(document);
    } else {
      PlainDocument(original, document, "characteristics");
    }
  }

  lemma InspectionKeepsType(strip: string -> string, document: Json, after: Json)
    requires IsInspection(document) && MigratedInspection(strip, document) == Some(after)
    ensures Get(after, "document_type") == Some(Str("INSPECTION_RECORD"))
  {}

  lemma ControlPlanIsNoInspection(document: Json)
    requires Approved(document, "CONTROL_PLAN")
    ensures Get(document, "document_type") != Some(Str("INSPECTION_RECORD"))
  {
    assert "CONTROL_PLAN"[0] == 'C' && "INSPECTION_RECORD"[0] == 'I';
  }

  lemma PassNeedsRow(w: World, s: Subject)
    requires CoverageStatus(w, s).PASS?
    ensures s.controlPlan.Some? && s.links != [] && Relations.HasRow(w.norm, s.controlPlan.value.rows, s.links[0])
  {
    hide Relations.HasRow, AllHave, Linked;
    assert s.links[0] in s.links;
  }

  /** No Case migrated from v0.1 passes R001, whatever its impact plan. */
  lemma MigratedCoverageNeverPasses(rules: Rules, w: World, before: Json, after: Json,
                                    steps: seq<string>, characteristics: seq<string>, links: seq<Relations.Pair>)
    requires FromV01(rules, before, after)
    ensures !CoverageStatus(w, SubjectOf(after, steps, characteristics, links)).PASS?
  {
    var s := SubjectOf(after, steps, characteristics, links);
    hide CoverageStatus, FromV01, RowOf, ItemsOf, DocumentByType;
    if s.controlPlan.Some? && links != [] {
      var control := DocumentByType(after, "CONTROL_PLAN");
      ControlPlanUnbound(rules, before, after, control.value);
      NoBoundRow(w, s.controlPlan.value, links[0]);
    }
    if CoverageStatus(w, s).PASS? {
      PassNeedsRow(w, s);
    }
  }

  lemma NoBoundRow(w: World, d: Relations.Document, p: Relations.Pair)
    requires forall k :: 0 <= k < |d.rows| ==> d.rows[k].step.None?
    ensures !Relations.HasRow(w.norm, d.rows, p)
  {}

  // ---------- Overall ----------

  /** `_overall_status`. */
  function Overall(statuses: seq<Status>): (r: Status)
    ensures r.PASS? <==> forall k :: 0 <= k < |statuses| ==> statuses[k].PASS?
    ensures r.CONTRADICTED? <==> exists k :: 0 <= k < |statuses| && statuses[k].CONTRADICTED?
  {
    if CONTRADICTED in statuses then CONTRADICTED else if UNVERIFIABLE in statuses then UNVERIFIABLE else PASS
  }

  /** Whatever the other six rules say and whatever sealed contexts are supplied, an input of version v0.1 or
      v0.2 is either refused or does not pass overall. */
  method EvaluateMigrated(rules: Rules, w: World, theCase: Json, context: Option<ReferenceContext>, others: seq<Status>)
    returns (prepared: Option<Json>, overall: Option<Status>)
    requires theCase.Obj? && CurrentOnly(rules)
    ensures prepared.Some? <==> MigratedCase(rules.strip, theCase).Some? && rules.valid(MigratedCase(rules.strip, theCase).value)
    ensures prepared.Some? ==> prepared == MigratedCase(rules.strip, theCase)
    ensures prepared.Some? <==> overall.Some?
    ensures prepared.Some? ==> overall.value == Overall(others + [InspectionReferenceStatus(prepared.value, context)])
    ensures overall.Some? && (Version(theCase) == Str(V01) || Version(theCase) == Str(V02)) ==> !overall.value.PASS?
    ensures overall.Some? && Version(theCase) == Str(V01) ==>
      forall steps, characteristics, links :: !CoverageStatus(w, SubjectOf(prepared.value, steps, characteristics, links)).PASS?
  {
    hide FromV02, InspectionReferenceStatus;
    prepared := PrepareCase(rules, theCase);
    if prepared.None? {
      return None, None;
    }
    var reference := InspectionReferenceStatus(prepared.value, context);
    overall := Some(Overall(others + [reference]));
    if Version(theCase) == Str(V01) || Version(theCase) == Str(V02) {
      MigratedReferencesUnverifiable(rules, theCase, prepared.value, context);
      assert (others + [reference])[|others|] == reference;
    }
    if Version(theCase) == Str(V01) {
      forall steps, characteristics, links ensures !CoverageStatus(w, SubjectOf(prepared.value, steps, characteristics, links)).PASS? {
        MigratedCoverageNeverPasses(rules, w, theCase, prepared.value, steps, characteristics, links);
      }
    }
  }
}

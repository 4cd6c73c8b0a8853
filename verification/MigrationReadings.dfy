/** What a migrated Case holds, member by member, and which documents and rows the rules then see. */
module MigrationReadings {
  import opened Json
  import Relations
  import opened RelationRules
  import opened Migration

  // ---------- v0.2 references ----------

  ghost predicate IsRecord(document: Json) {
    document.Obj? && "document_type" in document.members && document.members["document_type"] == Str("INSPECTION_RECORD")
  }

  /** The record's fields hold references that are not null. */
  ghost predicate Refers(document: Json) {
    && document.Obj? && "fields" in document.members && document.members["fields"].Obj?
    && "references" in document.members["fields"].members && document.members["fields"].members["references"] != Null
  }

  /** References in the old form: a text revision under each nonblank role. */
  ghost predicate OldForm(strip: string -> string, references: Json) {
    references.Obj? && forall role :: role in references.members ==> strip(role) != "" && references.members[role].Str?
  }

  /** `after` is the record with the contract version added and any references moved, whole, under one untrusted
      key; nothing else differs. */
  ghost predicate Distrusted(document: Json, after: Json)
    requires document.Obj?
  {
    && after.Obj? && after.members.Keys == document.members.Keys + {"reference_contract_version"}
    && after.members["reference_contract_version"] == Str("qualityci-controlled-reference-0.1")
    && (forall name :: name in document.members && name != "reference_contract_version" && name != "fields" ==>
          after.members[name] == document.members[name])
    && ("fields" in document.members ==> after.members["fields"] == FieldsAfter(document))
  }

  ghost function FieldsAfter(document: Json): Json
    requires document.Obj? && "fields" in document.members
  {
    if Refers(document) then
      var fields := document.members["fields"].members;
      Obj(fields["references" := Obj(map["LEGACY_UNATTESTED" := fields["references"]])])
    else document.members["fields"]
  }

  /** An inspection record is migrated exactly when its references, if any, have the old form, and to the distrusted
      record alone. */
  lemma RecordMigratedIff(strip: string -> string, document: Json, after: Json)
    requires IsInspection(document)
    ensures IsRecord(document)
    ensures MigratedInspection(strip, document) == Some(after) <==>
      (Refers(document) ==> OldForm(strip, document.members["fields"].members["references"])) && Distrusted(document, after)
  {
    var made := MigratedInspection(strip, document);
    OldFormIff(strip, document);
    hide OldForm, RevisionOnly;
    if made.Some? {
      MadeDistrusted(strip, document);
    }
    hide MigratedInspection;
    if made.Some? && Distrusted(document, after) {
      DistrustedOnce(document, made.value, after);
    }
  }

  lemma OldFormIff(strip: string -> string, document: Json)
    requires IsInspection(document)
    ensures MigratedInspection(strip, document).Some? <==> (Refers(document) ==> OldForm(strip, document.members["fields"].members["references"]))
  {}

  lemma MadeDistrusted(strip: string -> string, document: Json)
    requires IsInspection(document) && MigratedInspection(strip, document).Some?
    ensures Distrusted(document, MigratedInspection(strip, document).value)
  {
    hide RevisionOnly;
  }

  lemma DistrustedOnce(document: Json, a: Json, b: Json)
    requires document.Obj? && Distrusted(document, a) && Distrusted(document, b)
    ensures a == b
  {
    hide FieldsAfter;
    assert a.members.Keys == b.members.Keys;
    forall name | name in a.members ensures a.members[name] == b.members[name] {
      assert name in a.members.Keys;
    }
    assert a.members == b.members;
  }

  // ---------- v0.1 relationships ----------

  /** A row that already names a step or a control. */
  ghost predicate NamesRelationship(item: Json) {
    item.Obj? && ("process_step_id" in item.members || "control_id" in item.members)
  }

  /** Rows of one list of the document's fields. */
  ghost predicate HasRow(document: Json, list: string, item: Json) {
    && document.Obj? && "fields" in document.members && document.members["fields"].Obj?
    && var fields := document.members["fields"].members;
       list in fields && fields[list].Arr? && item in fields[list].items
  }

  ghost predicate NoRelationships(document: Json) {
    forall item :: HasRow(document, "risks", item) || HasRow(document, "characteristics", item) ==> !NamesRelationship(item)
  }

  lemma NoRelationshipsIff(document: Json)
    ensures !HasRelationshipRow(document) <==> NoRelationships(document)
  {
    ItemsAre(document, "risks");
    ItemsAre(document, "characteristics");
    hide ItemsOf, HasRow;
    assert forall item :: RelationshipRow(item) <==> NamesRelationship(item);
    hide RelationshipRow, NamesRelationship;
    var risks, characteristics := ItemsOf(document, "risks"), ItemsOf(document, "characteristics");
    assert (forall item :: item in risks ==> !RelationshipRow(item)) <==> forall k :: 0 <= k < |risks| ==> !RelationshipRow(risks[k]);
    assert (forall item :: item in characteristics ==> !RelationshipRow(item)) <==>
      forall k :: 0 <= k < |characteristics| ==> !RelationshipRow(characteristics[k]);
  }

  lemma ItemsAre(document: Json, list: string)
    ensures forall item :: item in ItemsOf(document, list) <==> HasRow(document, list, item)
  {}

  /** The event's list is one text that is not blank. */
  ghost predicate OnlySays(strip: string -> string, event: Json, list: string, t: string)
    requires event.Obj?
  {
    list in event.members && event.members[list] == Arr([Str(t)]) && strip(t) != ""
  }

  lemma OnlyTextIff(strip: string -> string, event: Json, list: string, t: string)
    requires event.Obj?
    ensures OnlyText(strip, Get(event, list)) == Some(t) <==> OnlySays(strip, event, list, t)
  {}

  /** The two markers of the first migration. */
  ghost function FirstMarker(status: string): Json {
    Obj(map["source_schema_version" := Str("qualityci-case-0.1"), "target_schema_version" := Str("qualityci-case-0.2"), "status" := Str(status)])
  }

  /** The Case with one link between the event's only step and only characteristic. */
  ghost function LinkedCase(theCase: Json, event: Json, step: string, characteristic: string): Json
    requires theCase.Obj? && event.Obj?
  {
    var link := Obj(map["process_step_id" := Str(step), "characteristic_id" := Str(characteristic)]);
    Obj(theCase.members["schema_version" := Str("qualityci-case-0.2")]["event" := Obj(event.members["affected_links" := Arr([link])])]
          ["relationship_migration" := FirstMarker("DETERMINISTIC_1X1")])
  }

  /** The first migration links the event's only step and only characteristic where it has just one of each, and
      otherwise says that the link is ambiguous; it changes nothing else. */
  lemma RelationshipsMigrated(strip: string -> string, theCase: Json, event: Json, after: Json)
    requires theCase.Obj? && event.Obj? && Get(theCase, "event") == Some(event) && MigratedRelationships(strip, theCase, event) == Some(after)
    ensures forall step, characteristic ::
      OnlySays(strip, event, "affected_process_steps", step) && OnlySays(strip, event, "affected_characteristics", characteristic) ==>
        after == LinkedCase(theCase, event, step, characteristic)
    ensures (forall step, characteristic ::
      !(OnlySays(strip, event, "affected_process_steps", step) && OnlySays(strip, event, "affected_characteristics", characteristic))) ==>
        after == Obj(theCase.members["schema_version" := Str("qualityci-case-0.2")]["relationship_migration" := FirstMarker("AMBIGUOUS")])
    ensures "affected_links" !in event.members
  {
    forall t
      ensures OnlyText(strip, Get(event, "affected_process_steps")) == Some(t) <==> OnlySays(strip, event, "affected_process_steps", t)
      ensures OnlyText(strip, Get(event, "affected_characteristics")) == Some(t) <==> OnlySays(strip, event, "affected_characteristics", t)
    {
      OnlyTextIff(strip, event, "affected_process_steps", t);
      OnlyTextIff(strip, event, "affected_characteristics", t);
    }
    hide OnlyText, OnlySays, HasRelationshipRow, RowsIterable, DocumentsOf;
    var step, characteristic := OnlyText(strip, Get(event, "affected_process_steps")), OnlyText(strip, Get(event, "affected_characteristics"));
    if step.Some? && characteristic.Some? {
      assert OnlySays(strip, event, "affected_process_steps", step.value) && OnlySays(strip, event, "affected_characteristics", characteristic.value);
    }
  }

  // ---------- What the rules see ----------

  ghost predicate Stands(document: Json, kind: string) {
    && document.Obj? && "document_type" in document.members && document.members["document_type"] == Str(kind)
    && "status" in document.members && document.members["status"] == Str("APPROVED")
  }

  /** The document is the only approved one of its type. */
  ghost predicate StandsAlone(documents: seq<Json>, kind: string, document: Json) {
    exists k :: 0 <= k < |documents| && documents[k] == document && Stands(document, kind)
      && forall j :: 0 <= j < |documents| && j != k ==> !Stands(documents[j], kind)
  }

  lemma StandsIff(document: Json, kind: string)
    ensures Approved(document, kind) <==> Stands(document, kind)
  {}

  lemma {:induction false} NoneStand(documents: seq<Json>, kind: string)
    ensures ApprovedCount(documents, kind) == 0 <==> forall k :: 0 <= k < |documents| ==> !Stands(documents[k], kind)
  {
    hide Stands, Approved;
    if documents != [] {
      var n := |documents| - 1;
      StandsIff(documents[n], kind);
      NoneStand(documents[..n], kind);
      assert forall k :: 0 <= k < n ==> documents[..n][k] == documents[k];
    }
  }

  lemma {:induction false} OneStands(documents: seq<Json>, kind: string, document: Json)
    ensures ApprovedCount(documents, kind) == 1 && LastApproved(documents, kind) == Some(document) <==> StandsAlone(documents, kind, document)
  {
    hide Stands, Approved;
    if documents != [] {
      var n := |documents| - 1;
      var front := documents[..n];
      StandsIff(documents[n], kind);
      NoneStand(front, kind);
      OneStands(front, kind, document);
      assert forall k :: 0 <= k < n ==> front[k] == documents[k];
      if Stands(documents[n], kind) {
        if StandsAlone(documents, kind, document) {
          var k :| 0 <= k < |documents| && documents[k] == document && Stands(document, kind)
            && forall j :: 0 <= j < |documents| && j != k ==> !Stands(documents[j], kind);
          assert k == n;
        }
      } else {
        FrontStands(documents, kind, document);
      }
    }
  }

  lemma FrontStands(documents: seq<Json>, kind: string, document: Json)
    requires documents != [] && !Stands(documents[|documents| - 1], kind)
    ensures StandsAlone(documents, kind, document) <==> StandsAlone(documents[..|documents| - 1], kind, document)
  {
    hide Stands;
    var n := |documents| - 1;
    var front := documents[..n];
    if StandsAlone(documents, kind, document) {
      var k :| 0 <= k < |documents| && documents[k] == document && Stands(document, kind)
        && forall j :: 0 <= j < |documents| && j != k ==> !Stands(documents[j], kind);
      assert front[k] == document;
    }
    if StandsAlone(front, kind, document) {
      var k :| 0 <= k < |front| && front[k] == document && Stands(document, kind)
        && forall j :: 0 <= j < |front| && j != k ==> !Stands(front[j], kind);
      assert documents[k] == document;
      forall j | 0 <= j < |documents| && j != k ensures !Stands(documents[j], kind) {
        assert j < n ==> documents[j] == front[j];
      }
    }
  }

  /** A rule's document for a type is the approved one when there is exactly one, and none otherwise. */
  lemma DocumentByTypeIff(theCase: Json, kind: string, document: Json)
    ensures DocumentByType(theCase, kind) == Some(document) <==> StandsAlone(DocumentsOf(theCase), kind, document)
  {
    OneStands(DocumentsOf(theCase), kind, document);
    hide ApprovedCount, LastApproved, StandsAlone, DocumentsOf;
  }

  /** A text member of a row; None where it is absent or no text. */
  ghost predicate TextIs(item: Json, name: string, t: Option<string>) {
    if item.Obj? && name in item.members && item.members[name].Str? then t == Some(item.members[name].s) else t == None
  }

  /** A rule's row shows the item's members and nothing else. */
  lemma RowShows(item: Json)
    ensures var row := RowOf(item);
      && TextIs(item, "process_step_id", row.step) && TextIs(item, "control_id", row.controlId)
      && TextIs(item, "control_method", row.controlMethod) && TextIs(item, "frequency", row.frequency)
      && TextIs(item, "reaction_plan", row.reaction)
      && (TextIs(item, "characteristic_id", Some(row.characteristic)) || (row.characteristic == "" && TextIs(item, "characteristic_id", None)))
      && row.specification == (if item.Obj? && "specification" in item.members then Some(item.members["specification"]) else None)
      && (row.special <==> item.Obj? && "special_characteristic" in item.members && item.members["special_characteristic"] == Bool(true))
  {}

  lemma {:induction false} TextsShown(items: seq<Json>)
    ensures forall s :: s in TextsOf(items) <==> Str(s) in items
  {
    if items != [] {
      var n := |items| - 1;
      TextsShown(items[..n]);
      assert items == items[..n] + [items[n]];
    }
  }

  // ---------- R005 ----------

  /** The Case has the three documents, and its inspection's references are an object. */
  ghost predicate RefersTo(theCase: Json, references: map<string, Json>) {
    && DocumentByType(theCase, "SOP").Some? && DocumentByType(theCase, "CONTROL_PLAN").Some?
    && DocumentByType(theCase, "INSPECTION_RECORD").Some?
    && var inspection := DocumentByType(theCase, "INSPECTION_RECORD").value;
       Refers(inspection) && inspection.members["fields"].members["references"] == Obj(references)
  }

  /** R005 decides only with sealed facts and both references; it passes when there is no third and the facts match. */
  lemma ReferenceStatusIs(theCase: Json, references: map<string, Json>, context: Option<ReferenceContext>)
    requires RefersTo(theCase, references)
    ensures var status := InspectionReferenceStatus(theCase, context);
      var sealedBoth := context.Some? && "SOP" in references && "CONTROL_PLAN" in references;
      var matching := sealedBoth && references.Keys == {"SOP", "CONTROL_PLAN"} && context.value.matches(theCase);
      && (status.PASS? <==> matching)
      && (status.CONTRADICTED? <==> sealedBoth && !matching)
  {
    ReferencesAre(DocumentByType(theCase, "INSPECTION_RECORD").value);
    hide DocumentByType, References, Refers;
    if references.Keys == {"LEGACY_UNATTESTED"} {
      NotBoth(references);
    }
    assert {"SOP", "CONTROL_PLAN"} <= references.Keys <==> "SOP" in references && "CONTROL_PLAN" in references;
  }

  /** Without the three documents or an object of references R005 decides nothing. */
  lemma NothingToRead(theCase: Json, context: Option<ReferenceContext>)
    requires forall references :: !RefersTo(theCase, references)
    ensures InspectionReferenceStatus(theCase, context).UNVERIFIABLE?
  {
    var inspection := DocumentByType(theCase, "INSPECTION_RECORD");
    if inspection.Some? {
      ReferencesAre(inspection.value);
      hide DocumentByType, References, Refers;
      if References(inspection.value).Some? && References(inspection.value).value.Obj? {
        assert !RefersTo(theCase, References(inspection.value).value.members);
      }
    }
  }

  lemma ReferencesAre(document: Json)
    requires document.Obj?
    ensures References(document).Some? <==> Refers(document)
    ensures Refers(document) ==> References(document) == Some(document.members["fields"].members["references"])
  {}

  lemma NotBoth(r: map<string, Json>)
    requires r.Keys == {"LEGACY_UNATTESTED"}
    ensures "SOP" !in r && r.Keys != {"SOP", "CONTROL_PLAN"}
  {
    assert |"SOP"| == 3 && |"LEGACY_UNATTESTED"| == 17;
    assert "LEGACY_UNATTESTED" in r.Keys;
    assert |"CONTROL_PLAN"| == 12;
  }
}

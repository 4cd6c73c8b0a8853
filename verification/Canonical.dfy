/** The canonical Case projection: arrays without business order, sorted; and the identities built on it. */
module Canonical {
  import opened Json
  import opened Ordering

  type Norm = string -> string

  // ---------- The parts of a Case the projection looks at ----------

  /** `required` is the validation plan's evidence list; `rest` holds every other member. */
  datatype Event = Event(steps: seq<Json>, characteristics: seq<Json>, links: Option<seq<Json>>, approvals: Option<seq<Json>>,
                         evidence: Option<seq<Json>>, required: Option<seq<Json>>, rest: map<string, Json>)

  datatype Fields = Fields(steps: Option<seq<Json>>, characteristics: Option<seq<Json>>, risks: Option<seq<Json>>, rest: map<string, Json>)

  datatype Document = Document(id: string, fields: Fields, rest: map<string, Json>)

  datatype Case = Case(event: Event, documents: seq<Document>, rest: map<string, Json>)

  // ---------- Sort keys ----------

  function TextOf(item: Json): string {
    if item.Str? then item.s else ""
  }

  /** `item.get(name, "")`. */
  function Member(item: Json, name: string): string {
    match Get(item, name)
    case Some(Str(s)) => s
    case _ => ""
  }

  function IdentityKey(norm: Norm): Json -> seq<string> {
    (item: Json) => [norm(TextOf(item))]
  }

  /** `relationship_key` of a link, characteristic or risk. */
  function LinkKey(norm: Norm): Json -> seq<string> {
    (item: Json) => [norm(Member(item, "process_step_id")), norm(Member(item, "characteristic_id"))]
  }

  function ApprovalKey(norm: Norm): Json -> seq<string> {
    (item: Json) => [norm(Member(item, "role")), norm(Member(item, "event_revision"))]
  }

  /** The exact subject the validator keeps unique. */
  function ApprovalSubject(): Json -> seq<string> {
    (item: Json) => [Member(item, "role"), Member(item, "event_revision")]
  }

  function EvidenceKey(norm: Norm): Json -> seq<string> {
    (item: Json) => [norm(Member(item, "evidence_id"))]
  }

  function RequiredKey(norm: Norm): Json -> seq<string> {
    (item: Json) => [norm(Member(item, "evidence_id")), Member(item, "evidence_id")]
  }

  function CharacteristicKey(norm: Norm): Json -> seq<string> {
    (item: Json) => [norm(Member(item, "process_step_id")), norm(Member(item, "characteristic_id")), norm(Member(item, "control_id"))]
  }

  function RiskKey(norm: Norm): Json -> seq<string> {
    (item: Json) => [norm(Member(item, "process_step_id")), norm(Member(item, "characteristic_id")), norm(Member(item, "failure_mode_id"))]
  }

  function FailureKey(norm: Norm): Json -> seq<string> {
    (item: Json) => [norm(Member(item, "failure_mode_id"))]
  }

  function ControlKey(norm: Norm): Json -> seq<string> {
    (item: Json) => [norm(Member(item, "control_id"))]
  }

  function DocumentKey(norm: Norm): Document -> seq<string> {
    (d: Document) => [norm(d.id)]
  }

  /** The text of a member, nothing where there is none. */
  ghost function Says(item: Json, name: string): string {
    if item.Obj? && name in item.members && item.members[name].Str? then item.members[name].s else ""
  }

  ghost predicate SayAlike(norm: Norm, x: Json, y: Json, name: string) {
    norm(Says(x, name)) == norm(Says(y, name))
  }

  /** What uniqueness compares: a link by its step and characteristic, evidence, failures and controls by their
      identifiers, all normalized, and an approval by the exact text of its role and revision. */
  lemma KeysSay(norm: Norm, x: Json, y: Json)
    ensures LinkKey(norm)(x) == LinkKey(norm)(y) <==> SayAlike(norm, x, y, "process_step_id") && SayAlike(norm, x, y, "characteristic_id")
    ensures EvidenceKey(norm)(x) == EvidenceKey(norm)(y) <==> SayAlike(norm, x, y, "evidence_id")
    ensures FailureKey(norm)(x) == FailureKey(norm)(y) <==> SayAlike(norm, x, y, "failure_mode_id")
    ensures ControlKey(norm)(x) == ControlKey(norm)(y) <==> SayAlike(norm, x, y, "control_id")
    ensures ApprovalSubject()(x) == ApprovalSubject()(y) <==>
      Says(x, "role") == Says(y, "role") && Says(x, "event_revision") == Says(y, "event_revision")
  {
    hide Member, Says;
    MemberSays(x);
    MemberSays(y);
    PairsSame(norm(Says(x, "process_step_id")), norm(Says(x, "characteristic_id")), norm(Says(y, "process_step_id")), norm(Says(y, "characteristic_id")));
    PairsSame(Says(x, "role"), Says(x, "event_revision"), Says(y, "role"), Says(y, "event_revision"));
    SinglesSame(norm(Says(x, "evidence_id")), norm(Says(y, "evidence_id")));
    SinglesSame(norm(Says(x, "failure_mode_id")), norm(Says(y, "failure_mode_id")));
    SinglesSame(norm(Says(x, "control_id")), norm(Says(y, "control_id")));
  }

  lemma MemberSays(x: Json)
    ensures forall name :: Member(x, name) == Says(x, name)
  {}

  lemma SinglesSame(a: string, b: string)
    ensures [a] == [b] <==> a == b
  {
    assert [a][0] == a && [b][0] == b;
  }

  lemma PairsSame(a: string, b: string, c: string, d: string)
    ensures [a, b] == [c, d] <==> a == c && b == d
  {
    assert [a, b][0] == a && [a, b][1] == b && [c, d][0] == c && [c, d][1] == d;
  }

  // ---------- The projection ----------

  function SortedOption(items: Option<seq<Json>>, key: Json -> seq<string>): Option<seq<Json>> {
    if items.Some? then Some(Sort(items.value, ByKey(key))) else None
  }

  function ProjectEvent(norm: Norm, e: Event): Event {
    Event(Sort(e.steps, ByKey(IdentityKey(norm))), Sort(e.characteristics, ByKey(IdentityKey(norm))),
          SortedOption(e.links, LinkKey(norm)), SortedOption(e.approvals, ApprovalKey(norm)),
          SortedOption(e.evidence, EvidenceKey(norm)), SortedOption(e.required, RequiredKey(norm)), e.rest)
  }

  function ProjectFields(norm: Norm, f: Fields): Fields {
    Fields(SortedOption(f.steps, IdentityKey(norm)), SortedOption(f.characteristics, CharacteristicKey(norm)),
           SortedOption(f.risks, RiskKey(norm)), f.rest)
  }

  function ProjectDocument(norm: Norm): Document -> Document {
    (d: Document) => d.(fields := ProjectFields(norm, d.fields))
  }

  function Project(norm: Norm, c: Case): Case {
    Case(ProjectEvent(norm, c.event), Mapped(ProjectDocument(norm), Sort(c.documents, ByKey(DocumentKey(norm)))), c.rest)
  }

  // ---------- What the validator guarantees ----------

  ghost predicate DistinctBy<T>(items: seq<T>, key: T -> seq<string>) {
    forall i, j :: 0 <= i < j < |items| ==> key(items[i]) != key(items[j])
  }

  ghost predicate DistinctOption(items: Option<seq<Json>>, key: Json -> seq<string>) {
    items.Some? ==> DistinctBy(items.value, key)
  }

  ghost predicate FieldsUnique(norm: Norm, f: Fields) {
    DistinctOption(f.steps, IdentityKey(norm)) && DistinctOption(f.characteristics, LinkKey(norm)) && DistinctOption(f.risks, FailureKey(norm))
  }

  ghost predicate EventUnique(norm: Norm, e: Event) {
    && DistinctBy(e.steps, IdentityKey(norm)) && DistinctBy(e.characteristics, IdentityKey(norm))
    && DistinctOption(e.links, LinkKey(norm)) && DistinctOption(e.evidence, EvidenceKey(norm))
    && DistinctOption(e.required, EvidenceKey(norm)) && DistinctOption(e.approvals, ApprovalSubject())
  }

  predicate IsControlPlan(d: Document) {
    "document_type" in d.rest && d.rest["document_type"] == Str("CONTROL_PLAN")
  }

  /** Control identifiers are unique in control plans only. */
  ghost predicate ControlsUnique(norm: Norm, d: Document) {
    IsControlPlan(d) ==> DistinctOption(d.fields.characteristics, ControlKey(norm))
  }

  /** The uniqueness checks of `validate_case` on a native Case; approvals are unique on their exact text. */
  ghost predicate Validated(norm: Norm, c: Case) {
    && EventUnique(norm, c.event) && DistinctBy(c.documents, DocumentKey(norm))
    && forall k :: 0 <= k < |c.documents| ==> FieldsUnique(norm, c.documents[k].fields) && ControlsUnique(norm, c.documents[k])
  }

  /** The row names its process step; rows migrated from v0.1 do not. */
  predicate Bound(item: Json) {
    Get(item, "process_step_id").Some? && Get(item, "process_step_id").value != Null
  }

  ghost predicate DistinctBound(rows: Option<seq<Json>>, key: Json -> seq<string>) {
    rows.Some? ==> forall i, j :: 0 <= i < j < |rows.value| && Bound(rows.value[i]) && Bound(rows.value[j]) ==> key(rows.value[i]) != key(rows.value[j])
  }

  /** The same checks on a Case migrated from v0.1: characteristic rows without a process step are passed over. */
  ghost predicate MigratedValidated(norm: Norm, c: Case) {
    && EventUnique(norm, c.event) && DistinctBy(c.documents, DocumentKey(norm))
    && forall k :: 0 <= k < |c.documents| ==> MigratedUnique(norm, c.documents[k])
  }

  ghost predicate MigratedUnique(norm: Norm, d: Document) {
    && DistinctOption(d.fields.steps, IdentityKey(norm)) && DistinctOption(d.fields.risks, FailureKey(norm))
    && DistinctBound(d.fields.characteristics, LinkKey(norm))
    && (IsControlPlan(d) ==> DistinctBound(d.fields.characteristics, ControlKey(norm)))
  }

  /** No two different rows of one document tie under the key they are sorted by. */
  ghost predicate RowsApart(norm: Norm, c: Case) {
    forall k :: 0 <= k < |c.documents| ==> TellsRows(norm, c.documents[k].fields)
  }

  ghost predicate TellsRows(norm: Norm, f: Fields) {
    f.characteristics.Some? ==> Distinguishes(f.characteristics.value, ByKey(CharacteristicKey(norm)))
  }

  /** What the projection of the fields needs to forget their order. */
  ghost predicate FieldsSettled(norm: Norm, f: Fields) {
    DistinctOption(f.steps, IdentityKey(norm)) && TellsRows(norm, f) && DistinctOption(f.risks, FailureKey(norm))
  }

  ghost predicate Settled(norm: Norm, c: Case) {
    && EventUnique(norm, c.event) && DistinctBy(c.documents, DocumentKey(norm))
    && forall k :: 0 <= k < |c.documents| ==> FieldsSettled(norm, c.documents[k].fields)
  }

  ghost predicate ApprovalsApart(norm: Norm, c: Case) {
    DistinctOption(c.event.approvals, ApprovalKey(norm))
  }

  // ---------- Rearrangements ----------

  ghost predicate Rearranged<T>(a: seq<T>, b: seq<T>) {
    multiset(a) == multiset(b)
  }

  ghost predicate RearrangedOption(a: Option<seq<Json>>, b: Option<seq<Json>>) {
    a.Some? == b.Some? && (a.Some? ==> Rearranged(a.value, b.value))
  }

  ghost predicate SameEvent(a: Event, b: Event) {
    && Rearranged(a.steps, b.steps) && Rearranged(a.characteristics, b.characteristics) && RearrangedOption(a.links, b.links)
    && RearrangedOption(a.approvals, b.approvals) && RearrangedOption(a.evidence, b.evidence)
    && RearrangedOption(a.required, b.required) && a.rest == b.rest
  }

  ghost predicate SameFields(a: Fields, b: Fields) {
    && RearrangedOption(a.steps, b.steps) && RearrangedOption(a.characteristics, b.characteristics)
    && RearrangedOption(a.risks, b.risks) && a.rest == b.rest
  }

  ghost predicate SameDocument(a: Document, b: Document) {
    a.id == b.id && SameFields(a.fields, b.fields) && a.rest == b.rest
  }

  ghost predicate SameDocuments(a: seq<Document>, b: seq<Document>) {
    exists m: seq<Document> :: Rearranged(a, m) && |m| == |b| && forall k :: 0 <= k < |b| ==> SameDocument(m[k], b[k])
  }

  /** The same Case with any of its unordered arrays listed in another order, documents' own arrays included. */
  ghost predicate SameCase(a: Case, b: Case) {
    SameEvent(a.event, b.event) && SameDocuments(a.documents, b.documents) && a.rest == b.rest
  }

  // ---------- Sorting forgets the order ----------

  lemma KeyEqual<T(!new)>(key: T -> seq<string>, a: T, b: T)
    ensures ByKey(key)(a, b) && ByKey(key)(b, a) <==> key(a) == key(b)
  {
    KeyTotal(key(a), key(b));
  }

  /** Keys that differ pairwise tell the members apart; `fine` may only refine `coarse`. */
  lemma DistinctDistinguish<T(!new)>(items: seq<T>, coarse: T -> seq<string>, fine: T -> seq<string>)
    requires DistinctBy(items, coarse)
    requires forall a, b :: a in items && b in items && fine(a) == fine(b) ==> coarse(a) == coarse(b)
    ensures Distinguishes(items, ByKey(fine))
  {
    hide KeyLe;
    forall a, b | a in items && b in items && ByKey(fine)(a, b) && ByKey(fine)(b, a) ensures a == b {
      KeyEqual(fine, a, b);
      var i :| 0 <= i < |items| && items[i] == a;
      var j :| 0 <= j < |items| && items[j] == b;
      assert i == j || coarse(a) != coarse(b);
    }
  }

  lemma SortAgrees<T(!new)>(a: seq<T>, b: seq<T>, coarse: T -> seq<string>, fine: T -> seq<string>)
    requires DistinctBy(a, coarse) && Rearranged(a, b)
    requires forall x, y :: x in a && y in a && fine(x) == fine(y) ==> coarse(x) == coarse(y)
    ensures Sort(a, ByKey(fine)) == Sort(b, ByKey(fine))
  {
    DistinctDistinguish(a, coarse, fine);
    SortForgetsOrder(a, b, ByKey(fine));
  }

  lemma OptionAgrees(a: Option<seq<Json>>, b: Option<seq<Json>>, coarse: Json -> seq<string>, fine: Json -> seq<string>)
    requires DistinctOption(a, coarse) && RearrangedOption(a, b)
    requires forall x, y :: fine(x) == fine(y) ==> coarse(x) == coarse(y)
    ensures SortedOption(a, fine) == SortedOption(b, fine)
  {
    if a.Some? {
      SortAgrees(a.value, b.value, coarse, fine);
    }
  }

  lemma RequiredRefines(norm: Norm)
    ensures forall x, y :: RequiredKey(norm)(x) == RequiredKey(norm)(y) ==> EvidenceKey(norm)(x) == EvidenceKey(norm)(y)
  {
    forall x, y | RequiredKey(norm)(x) == RequiredKey(norm)(y) ensures EvidenceKey(norm)(x) == EvidenceKey(norm)(y) {
      assert RequiredKey(norm)(x)[0] == RequiredKey(norm)(y)[0];
    }
  }

  lemma CharacteristicRefines(norm: Norm)
    ensures forall x, y :: CharacteristicKey(norm)(x) == CharacteristicKey(norm)(y) ==> LinkKey(norm)(x) == LinkKey(norm)(y)
  {
    forall x, y | CharacteristicKey(norm)(x) == CharacteristicKey(norm)(y) ensures LinkKey(norm)(x) == LinkKey(norm)(y) {
      assert CharacteristicKey(norm)(x)[0] == CharacteristicKey(norm)(y)[0] && CharacteristicKey(norm)(x)[1] == CharacteristicKey(norm)(y)[1];
    }
  }

  lemma RiskRefines(norm: Norm)
    ensures forall x, y :: RiskKey(norm)(x) == RiskKey(norm)(y) ==> FailureKey(norm)(x) == FailureKey(norm)(y)
  {
    forall x, y | RiskKey(norm)(x) == RiskKey(norm)(y) ensures FailureKey(norm)(x) == FailureKey(norm)(y) {
      assert RiskKey(norm)(x)[2] == RiskKey(norm)(y)[2];
    }
  }

  lemma UniqueSettled(norm: Norm, f: Fields)
    requires FieldsUnique(norm, f)
    ensures FieldsSettled(norm, f)
  {
    CharacteristicRefines(norm);
    hide IdentityKey, LinkKey, CharacteristicKey, FailureKey, ByKey;
    if f.characteristics.Some? {
      DistinctDistinguish(f.characteristics.value, LinkKey(norm), CharacteristicKey(norm));
    }
  }

  /** The checks on a native Case settle it, and its rows are apart. */
  lemma ValidatedSettled(norm: Norm, c: Case)
    requires Validated(norm, c)
    ensures Settled(norm, c) && RowsApart(norm, c) && MigratedValidated(norm, c)
  {
    hide EventUnique, DistinctBy, IdentityKey, LinkKey, CharacteristicKey, FailureKey, ControlKey, ByKey, Distinguishes;
    forall k | 0 <= k < |c.documents| ensures FieldsSettled(norm, c.documents[k].fields) && MigratedUnique(norm, c.documents[k]) {
      UniqueSettled(norm, c.documents[k].fields);
      UniqueBound(c.documents[k].fields.characteristics, LinkKey(norm));
      UniqueBound(c.documents[k].fields.characteristics, ControlKey(norm));
    }
  }

  lemma UniqueBound(rows: Option<seq<Json>>, key: Json -> seq<string>)
    ensures DistinctOption(rows, key) ==> DistinctBound(rows, key)
  {}

  lemma MigratedSettled(norm: Norm, c: Case)
    requires MigratedValidated(norm, c) && RowsApart(norm, c)
    ensures Settled(norm, c)
  {
    hide EventUnique, DistinctBy, IdentityKey, LinkKey, CharacteristicKey, FailureKey, ControlKey, ByKey, Distinguishes, DistinctBound;
    forall k | 0 <= k < |c.documents| ensures FieldsSettled(norm, c.documents[k].fields) {
      assert MigratedUnique(norm, c.documents[k]);
    }
  }

  lemma FieldsAgree(norm: Norm, a: Fields, b: Fields)
    requires FieldsSettled(norm, a) && SameFields(a, b)
    ensures ProjectFields(norm, a) == ProjectFields(norm, b)
  {
    RiskRefines(norm);
    hide IdentityKey, CharacteristicKey, RiskKey, FailureKey, ByKey;
    OptionAgrees(a.steps, b.steps, IdentityKey(norm), IdentityKey(norm));
    if a.characteristics.Some? {
      SortForgetsOrder(a.characteristics.value, b.characteristics.value, ByKey(CharacteristicKey(norm)));
    }
    OptionAgrees(a.risks, b.risks, FailureKey(norm), RiskKey(norm));
  }

  /** Everything of the event but the approvals projects alike whatever the order. */
  lemma EventAgrees(norm: Norm, a: Event, b: Event)
    requires EventUnique(norm, a) && SameEvent(a, b)
    ensures ProjectEvent(norm, a).(approvals := None) == ProjectEvent(norm, b).(approvals := None)
  {
    RequiredRefines(norm);
    hide IdentityKey, LinkKey, EvidenceKey, RequiredKey, ApprovalKey, ApprovalSubject, SortedOption, Sort;
    SortAgrees(a.steps, b.steps, IdentityKey(norm), IdentityKey(norm));
    SortAgrees(a.characteristics, b.characteristics, IdentityKey(norm), IdentityKey(norm));
    OptionAgrees(a.links, b.links, LinkKey(norm), LinkKey(norm));
    OptionAgrees(a.evidence, b.evidence, EvidenceKey(norm), EvidenceKey(norm));
    OptionAgrees(a.required, b.required, EvidenceKey(norm), RequiredKey(norm));
  }

  /** Sorting the documents and then projecting them is projecting and then sorting. */
  lemma ProjectedSort(norm: Norm, ds: seq<Document>)
    ensures Mapped(ProjectDocument(norm), Sort(ds, ByKey(DocumentKey(norm)))) == Sort(Mapped(ProjectDocument(norm), ds), ByKey(DocumentKey(norm)))
  {
    ProjectionKeepsId(norm);
    hide *;
    SortMapped(ProjectDocument(norm), ds, ByKey(DocumentKey(norm)), ByKey(DocumentKey(norm)));
  }

  lemma MappedAlike(norm: Norm, a: seq<Document>, m: seq<Document>, b: seq<Document>)
    requires forall k :: 0 <= k < |a| ==> FieldsSettled(norm, a[k].fields)
    requires Rearranged(a, m) && |m| == |b| && forall k :: 0 <= k < |b| ==> SameDocument(m[k], b[k])
    ensures Mapped(ProjectDocument(norm), m) == Mapped(ProjectDocument(norm), b)
  {
    var f := ProjectDocument(norm);
    hide ProjectDocument, FieldsSettled;
    forall k | 0 <= k < |b| ensures f(m[k]) == f(b[k]) {
      assert m[k] in multiset(a);
      var i :| 0 <= i < |a| && a[i] == m[k];
      DocumentAgrees(norm, m[k], b[k]);
    }
  }

  lemma DocumentsAgree(norm: Norm, a: seq<Document>, b: seq<Document>)
    requires DistinctBy(a, DocumentKey(norm)) && SameDocuments(a, b)
    requires forall k :: 0 <= k < |a| ==> FieldsSettled(norm, a[k].fields)
    ensures Mapped(ProjectDocument(norm), Sort(a, ByKey(DocumentKey(norm)))) == Mapped(ProjectDocument(norm), Sort(b, ByKey(DocumentKey(norm))))
  {
    hide ByKey, ProjectDocument, FieldsSettled, Sort, DocumentKey, Mapped;
    var m: seq<Document> :| Rearranged(a, m) && |m| == |b| && forall k :: 0 <= k < |b| ==> SameDocument(m[k], b[k]);
    SortAgrees(a, m, DocumentKey(norm), DocumentKey(norm));
    ProjectedSort(norm, m);
    ProjectedSort(norm, b);
    MappedAlike(norm, a, m, b);
  }

  lemma DocumentAgrees(norm: Norm, a: Document, b: Document)
    requires FieldsSettled(norm, a.fields) && SameDocument(a, b)
    ensures ProjectDocument(norm)(a) == ProjectDocument(norm)(b)
  {
    FieldsAgree(norm, a.fields, b.fields);
  }

  lemma ProjectionKeepsId(norm: Norm)
    ensures forall a, b :: ByKey(DocumentKey(norm))(ProjectDocument(norm)(a), ProjectDocument(norm)(b)) == ByKey(DocumentKey(norm))(a, b)
  {}

  /** Rearranging a settled Case changes its projection in the approvals at most. */
  lemma ProjectionAgrees(norm: Norm, a: Case, b: Case)
    requires Settled(norm, a) && SameCase(a, b)
    ensures Project(norm, a).(event := ProjectEvent(norm, a.event).(approvals := None))
      == Project(norm, b).(event := ProjectEvent(norm, b.event).(approvals := None))
  {
    hide EventUnique, SameEvent, ProjectEvent, SameDocuments, FieldsSettled;
    EventAgrees(norm, a.event, b.event);
    DocumentsAgree(norm, a.documents, b.documents);
  }

  /** Every rearrangement has the same projection. */
  ghost predicate OrderInsensitive(norm: Norm, c: Case) {
    forall d :: SameCase(c, d) ==> Project(norm, d) == Project(norm, c)
  }

  lemma SameCaseReflexive(c: Case, approvals: Option<seq<Json>>)
    requires RearrangedOption(c.event.approvals, approvals)
    ensures SameCase(c, c.(event := c.event.(approvals := approvals)))
  {
    assert Rearranged(c.documents, c.documents);
    forall k | 0 <= k < |c.documents| ensures SameDocument(c.documents[k], c.documents[k]) {}
  }

  lemma ApartIffDistinguished(norm: Norm, approvals: seq<Json>)
    requires DistinctBy(approvals, ApprovalSubject())
    ensures Distinguishes(approvals, ByKey(ApprovalKey(norm))) <==> DistinctBy(approvals, ApprovalKey(norm))
  {
    var key := ApprovalKey(norm);
    hide KeyLe;
    if DistinctBy(approvals, key) {
      DistinctDistinguish(approvals, key, key);
    }
    if Distinguishes(approvals, ByKey(key)) {
      forall i, j | 0 <= i < j < |approvals| ensures key(approvals[i]) != key(approvals[j]) {
        KeyEqual(key, approvals[i], approvals[j]);
        assert ApprovalSubject()(approvals[i]) != ApprovalSubject()(approvals[j]);
      }
    }
  }

  /** The projection, and with it the canonical hash, forgets the listing order of a validated native Case exactly
      when its approvals stay distinct after normalization. */
  lemma CanonicalIff(norm: Norm, c: Case)
    requires Validated(norm, c)
    ensures OrderInsensitive(norm, c) <==> ApprovalsApart(norm, c)
  {
    ValidatedSettled(norm, c);
    hide Validated, MigratedValidated, RowsApart, OrderInsensitive, ApprovalsApart, Settled;
    MigratedIff(norm, c);
  }

  /** Of a Case migrated from v0.1, exactly when moreover no two different rows of one document tie; rows without a
      process step may, as the validator passes them over. */
  lemma MigratedIff(norm: Norm, c: Case)
    requires MigratedValidated(norm, c)
    ensures OrderInsensitive(norm, c) <==> ApprovalsApart(norm, c) && RowsApart(norm, c)
  {
    ApprovalsDecided(norm, c);
    hide MigratedValidated, ApprovalKey, ApprovalSubject, SameDocuments, ByKey, DistinctBy, Distinguishes;
    if ApprovalsApart(norm, c) && RowsApart(norm, c) {
      MigratedSettled(norm, c);
      hide Settled, RowsApart;
      forall d | SameCase(c, d) ensures Project(norm, d) == Project(norm, c) {
        ProjectionAgrees(norm, c, d);
        ApprovalsForgotten(norm, c, d);
      }
    }
    if OrderInsensitive(norm, c) && c.event.approvals.Some? {
      forall ys | multiset(ys) == multiset(c.event.approvals.value)
        ensures Sort(ys, ByKey(ApprovalKey(norm))) == Sort(c.event.approvals.value, ByKey(ApprovalKey(norm)))
      {
        ReorderedApprovals(norm, c, ys);
      }
    }
    if !RowsApart(norm, c) {
      var k :| 0 <= k < |c.documents| && !TellsRows(norm, c.documents[k].fields);
      TiedRowsTell(norm, c, k);
    }
  }

  lemma ApprovalsDecided(norm: Norm, c: Case)
    requires MigratedValidated(norm, c)
    ensures c.event.approvals.Some? ==>
      (OrderForgotten(c.event.approvals.value, ByKey(ApprovalKey(norm))) <==> ApprovalsApart(norm, c))
    ensures c.event.approvals.None? ==> ApprovalsApart(norm, c)
  {
    hide ApprovalKey, ApprovalSubject, ByKey, MigratedUnique, DocumentKey;
    if c.event.approvals.Some? {
      ApartIffDistinguished(norm, c.event.approvals.value);
      SortCanonicalIff(c.event.approvals.value, ByKey(ApprovalKey(norm)));
    }
  }

  // ---------- Rows that tie ----------

  function WithRows(c: Case, k: nat, rows: seq<Json>): Case
    requires k < |c.documents|
  {
    c.(documents := c.documents[k := c.documents[k].(fields := c.documents[k].fields.(characteristics := Some(rows)))])
  }

  lemma RowsMoved(c: Case, k: nat, rows: seq<Json>)
    requires k < |c.documents| && c.documents[k].fields.characteristics.Some?
    requires Rearranged(c.documents[k].fields.characteristics.value, rows)
    ensures SameCase(c, WithRows(c, k, rows))
  {
    var ds := c.documents;
    forall i | 0 <= i < |ds| ensures SameDocument(ds[i], WithRows(c, k, rows).documents[i]) {}
    assert Rearranged(ds, ds);
  }

  lemma Replaced<T>(items: seq<T>, k: nat, x: T)
    requires k < |items| && multiset(items[k := x]) == multiset(items)
    ensures x == items[k]
  {
    assert items == items[..k] + [items[k]] + items[k + 1..];
    assert items[k := x] == items[..k] + [x] + items[k + 1..];
    var rest := multiset(items[..k]) + multiset(items[k + 1..]);
    assert multiset(items) == rest + multiset{items[k]};
    assert multiset(items[k := x]) == rest + multiset{x};
    assert (rest + multiset{x})[x] == rest[x] + 1;
  }

  lemma SameSortedSameItem<T(!new)>(x: seq<T>, y: seq<T>, k: nat, le: (T, T) -> bool)
    requires k < |x| && |y| == |x| && y == x[k := y[k]] && Sort(x, le) == Sort(y, le)
    ensures y[k] == x[k]
  {
    assert multiset(x) == multiset(Sort(x, le)) && multiset(y) == multiset(Sort(y, le));
    Replaced(x, k, y[k]);
  }

  lemma MappedUpdate(f: Document -> Document, a: seq<Document>, b: seq<Document>, k: nat)
    requires k < |a| && |b| == |a| && b == a[k := b[k]]
    ensures |Mapped(f, a)| == |a| && |Mapped(f, b)| == |b|
    ensures Mapped(f, b) == Mapped(f, a)[k := f(b[k])] && Mapped(f, a)[k] == f(a[k]) && Mapped(f, b)[k] == f(b[k])
  {}

  lemma SameProjectionSameDocument(norm: Norm, c: Case, d: Case, k: nat)
    requires k < |c.documents| && |d.documents| == |c.documents| && d.documents == c.documents[k := d.documents[k]]
    requires Project(norm, d).documents == Project(norm, c).documents
    ensures ProjectDocument(norm)(d.documents[k]) == ProjectDocument(norm)(c.documents[k])
  {
    var f, le := ProjectDocument(norm), ByKey(DocumentKey(norm));
    ProjectedSort(norm, c.documents);
    ProjectedSort(norm, d.documents);
    assert Sort(Mapped(f, c.documents), le) == Sort(Mapped(f, d.documents), le);
    hide *;
    MappedUpdate(f, c.documents, d.documents, k);
    SameSortedSameItem(Mapped(f, c.documents), Mapped(f, d.documents), k, le);
  }

  /** One document listed so that its rows sort differently is projected differently, and so is the Case. */
  lemma RowsTell(norm: Norm, c: Case, k: nat, rows: seq<Json>)
    requires k < |c.documents| && c.documents[k].fields.characteristics.Some?
    requires Sort(rows, ByKey(CharacteristicKey(norm))) != Sort(c.documents[k].fields.characteristics.value, ByKey(CharacteristicKey(norm)))
    ensures Project(norm, WithRows(c, k, rows)) != Project(norm, c)
  {
    var d := WithRows(c, k, rows);
    hide CharacteristicKey, ByKey, IdentityKey, RiskKey, ProjectEvent;
    assert ProjectDocument(norm)(d.documents[k]).fields.characteristics != ProjectDocument(norm)(c.documents[k]).fields.characteristics;
    hide ProjectDocument;
    if Project(norm, d).documents == Project(norm, c).documents {
      SameProjectionSameDocument(norm, c, d, k);
    }
  }

  lemma TiedRowsTell(norm: Norm, c: Case, k: nat)
    requires k < |c.documents| && !TellsRows(norm, c.documents[k].fields)
    ensures !OrderInsensitive(norm, c)
  {
    var rows, le := c.documents[k].fields.characteristics.value, ByKey(CharacteristicKey(norm));
    hide Project, SameCase, CharacteristicKey, ByKey;
    SortCanonicalIff(rows, le);
    assert !OrderForgotten(rows, le);
    var other :| multiset(other) == multiset(rows) && Sort(other, le) != Sort(rows, le);
    RowsMoved(c, k, other);
    RowsTell(norm, c, k, other);
  }

  lemma ApprovalsForgotten(norm: Norm, c: Case, d: Case)
    requires SameCase(c, d) && (c.event.approvals.Some? ==> OrderForgotten(c.event.approvals.value, ByKey(ApprovalKey(norm))))
    ensures ProjectEvent(norm, c.event).approvals == ProjectEvent(norm, d.event).approvals
  {
    hide SameDocuments, ApprovalKey;
  }

  lemma ReorderedApprovals(norm: Norm, c: Case, ys: seq<Json>)
    requires OrderInsensitive(norm, c) && c.event.approvals.Some? && multiset(ys) == multiset(c.event.approvals.value)
    ensures Sort(ys, ByKey(ApprovalKey(norm))) == Sort(c.event.approvals.value, ByKey(ApprovalKey(norm)))
  {
    hide ApprovalKey, SameCase;
    var d := c.(event := c.event.(approvals := Some(ys)));
    SameCaseReflexive(c, Some(ys));
    assert Project(norm, d) == Project(norm, c);
    assert Project(norm, d).event.approvals == SortedOption(Some(ys), ApprovalKey(norm));
    assert Project(norm, c).event.approvals == SortedOption(c.event.approvals, ApprovalKey(norm));
  }

  function Approval(role: string, revision: string): Json {
    Obj(map["role" := Str(role), "decision" := Str("APPROVED"), "event_revision" := Str(revision)])
  }

  function WithApprovals(c: Case, approvals: seq<Json>): Case {
    c.(event := c.event.(approvals := Some(approvals)))
  }

  lemma ApprovalsSwapped(c: Case, x: Json, y: Json)
    ensures SameCase(WithApprovals(c, [x, y]), WithApprovals(c, [y, x]))
  {
    assert multiset([x, y]) == multiset([y, x]);
    SameCaseReflexive(WithApprovals(c, [x, y]), Some([y, x]));
  }

  lemma PairSorted<T(!new)>(x: T, y: T, le: (T, T) -> bool)
    requires le(x, y)
    ensures Sort([x, y], le) == [x, y]
  {
    assert [x, y][1..] == [y] && [y][1..] == [];
    assert Sort([y], le) == [y];
  }

  lemma ApprovalParts(norm: Norm, role: string, revision: string)
    ensures ApprovalKey(norm)(Approval(role, revision)) == [norm(role), norm(revision)]
    ensures ApprovalSubject()(Approval(role, revision)) == [role, revision]
  {
    assert |"role"| == 4 && |"decision"| == 8 && |"event_revision"| == 14;
    assert Member(Approval(role, revision), "role") == role;
    assert Member(Approval(role, revision), "event_revision") == revision;
  }

  lemma ApprovalsUnique(norm: Norm, c: Case, a: string, b: string, revision: string)
    requires Validated(norm, c) && a != b
    ensures Validated(norm, WithApprovals(c, [Approval(a, revision), Approval(b, revision)]))
  {
    ApprovalParts(norm, a, revision);
    ApprovalParts(norm, b, revision);
    assert ApprovalSubject()(Approval(a, revision))[0] == a && ApprovalSubject()(Approval(b, revision))[0] == b;
    hide IdentityKey, LinkKey, EvidenceKey, ApprovalSubject, Approval, FieldsUnique, ControlsUnique, DocumentKey;
  }

  /** The input on which the projection depends on listing order, in every validated Case: two approvals whose
      roles differ in spelling only. */
  lemma TiedApprovals(norm: Norm, c: Case, a: string, b: string, revision: string)
    requires Validated(norm, c) && norm(a) == norm(b) && a != b
    ensures var x, y := Approval(a, revision), Approval(b, revision);
      && Validated(norm, WithApprovals(c, [x, y])) && SameCase(WithApprovals(c, [x, y]), WithApprovals(c, [y, x]))
      && Project(norm, WithApprovals(c, [x, y])) != Project(norm, WithApprovals(c, [y, x]))
  {
    var x, y := Approval(a, revision), Approval(b, revision);
    ApprovalsUnique(norm, c, a, b, revision);
    ApprovalsSwapped(c, x, y);
    ApprovalParts(norm, a, revision);
    ApprovalParts(norm, b, revision);
    KeyEqual(ApprovalKey(norm), x, y);
    PairSorted(x, y, ByKey(ApprovalKey(norm)));
    PairSorted(y, x, ByKey(ApprovalKey(norm)));
    hide Validated, SameCase, ApprovalKey, ApprovalSubject, Approval, ByKey, Sort, IdentityKey, LinkKey, EvidenceKey, RequiredKey, ProjectDocument, DocumentKey;
    assert [x, y][0] == x && [y, x][0] == y && x != y;
    assert Project(norm, WithApprovals(c, [x, y])).event.approvals == Some([x, y]);
    assert Project(norm, WithApprovals(c, [y, x])).event.approvals == Some([y, x]);
  }

  function UnboundRow(characteristic: string, locator: string): Json {
    Obj(map["characteristic_id" := Str(characteristic), "locator" := Str(locator)])
  }

  lemma UnboundParts(norm: Norm, characteristic: string, locator: string)
    ensures !Bound(UnboundRow(characteristic, locator))
    ensures CharacteristicKey(norm)(UnboundRow(characteristic, locator)) == [norm(""), norm(characteristic), norm("")]
    ensures Member(UnboundRow(characteristic, locator), "locator") == locator
  {
    assert |"characteristic_id"| == 17 && |"locator"| == 7 && |"process_step_id"| == 15 && |"control_id"| == 10;
    var row := UnboundRow(characteristic, locator);
    assert Get(row, "process_step_id").None? && Get(row, "control_id").None?;
    assert Member(row, "characteristic_id") == characteristic;
  }

  /** The input of a migrated Case: two rows of one characteristic without process steps. */
  lemma TiedRows(norm: Norm, c: Case, k: nat, characteristic: string, one: string, two: string)
    requires MigratedValidated(norm, c) && k < |c.documents| && one != two
    ensures var d := WithRows(c, k, [UnboundRow(characteristic, one), UnboundRow(characteristic, two)]);
      MigratedValidated(norm, d) && !OrderInsensitive(norm, d)
  {
    var x, y := UnboundRow(characteristic, one), UnboundRow(characteristic, two);
    var d := WithRows(c, k, [x, y]);
    UnboundParts(norm, characteristic, one);
    UnboundParts(norm, characteristic, two);
    KeyEqual(CharacteristicKey(norm), x, y);
    UnboundValid(norm, c, k, x, y);
    hide MigratedValidated, CharacteristicKey, UnboundRow, ByKey, OrderInsensitive, Member, Bound;
    assert d.documents[k].fields.characteristics == Some([x, y]) && x in [x, y] && y in [x, y] && x != y;
    assert !TellsRows(norm, d.documents[k].fields);
    TiedRowsTell(norm, d, k);
  }

  lemma UnboundValid(norm: Norm, c: Case, k: nat, x: Json, y: Json)
    requires MigratedValidated(norm, c) && k < |c.documents| && !Bound(x) && !Bound(y)
    ensures MigratedValidated(norm, WithRows(c, k, [x, y]))
  {
    hide EventUnique, Bound, IdentityKey, FailureKey, LinkKey, ControlKey;
    var d := WithRows(c, k, [x, y]);
    forall i | 0 <= i < |d.documents| ensures MigratedUnique(norm, d.documents[i]) {
      assert MigratedUnique(norm, c.documents[i]);
    }
    forall i, j | 0 <= i < j < |d.documents| ensures DocumentKey(norm)(d.documents[i]) != DocumentKey(norm)(d.documents[j]) {
      assert DocumentKey(norm)(c.documents[i]) != DocumentKey(norm)(c.documents[j]);
    }
  }

  // ---------- What the projection keeps ----------

  ghost function AsSame(): (Document, Document) -> bool {
    (x: Document, y: Document) => SameDocument(x, y)
  }

  lemma SameDocumentSymmetric(x: Document, y: Document)
    requires SameDocument(x, y)
    ensures SameDocument(y, x)
  {}

  lemma SameDocumentTransitive(x: Document, y: Document, z: Document)
    requires SameDocument(x, y) && SameDocument(y, z)
    ensures SameDocument(x, z)
  {}

  lemma SameDocumentsSymmetric(a: seq<Document>, b: seq<Document>)
    requires SameDocuments(a, b)
    ensures SameDocuments(b, a)
  {
    hide SameDocument;
    var m: seq<Document> :| Rearranged(a, m) && |m| == |b| && forall k :: 0 <= k < |b| ==> SameDocument(m[k], b[k]);
    forall k | 0 <= k < |b| ensures AsSame()(b[k], m[k]) {
      SameDocumentSymmetric(m[k], b[k]);
    }
    var n := Realign(b, m, a, AsSame());
    assert forall k :: 0 <= k < |a| ==> AsSame()(n[k], a[k]);
  }

  lemma SameDocumentsTransitive(a: seq<Document>, b: seq<Document>, c: seq<Document>)
    requires SameDocuments(a, b) && SameDocuments(b, c)
    ensures SameDocuments(a, c)
  {
    hide SameDocument;
    var m: seq<Document> :| Rearranged(a, m) && |m| == |b| && forall k :: 0 <= k < |b| ==> SameDocument(m[k], b[k]);
    var n: seq<Document> :| Rearranged(b, n) && |n| == |c| && forall k :: 0 <= k < |c| ==> SameDocument(n[k], c[k]);
    var r := Realign(m, b, n, AsSame());
    assert forall k :: 0 <= k < |n| ==> AsSame()(r[k], n[k]);
    forall k | 0 <= k < |c| ensures SameDocument(r[k], c[k]) {
      SameDocumentTransitive(r[k], n[k], c[k]);
    }
  }

  lemma SameCaseSymmetric(a: Case, b: Case)
    requires SameCase(a, b)
    ensures SameCase(b, a)
  {
    hide SameDocuments;
    SameDocumentsSymmetric(a.documents, b.documents);
  }

  lemma SameCaseTransitive(a: Case, b: Case, c: Case)
    requires SameCase(a, b) && SameCase(b, c)
    ensures SameCase(a, c)
  {
    hide SameDocuments;
    SameDocumentsTransitive(a.documents, b.documents, c.documents);
  }

  lemma SortedRearranged(items: Option<seq<Json>>, key: Json -> seq<string>)
    ensures RearrangedOption(items, SortedOption(items, key))
  {}

  lemma ProjectedFieldsSame(norm: Norm, f: Fields)
    ensures SameFields(f, ProjectFields(norm, f))
  {
    SortedRearranged(f.steps, IdentityKey(norm));
    SortedRearranged(f.characteristics, CharacteristicKey(norm));
    SortedRearranged(f.risks, RiskKey(norm));
    hide SortedOption, IdentityKey, CharacteristicKey, RiskKey;
  }

  lemma ProjectedDocumentsSame(norm: Norm, ds: seq<Document>)
    ensures SameDocuments(ds, Mapped(ProjectDocument(norm), Sort(ds, ByKey(DocumentKey(norm)))))
  {
    var m := Sort(ds, ByKey(DocumentKey(norm)));
    var b := Mapped(ProjectDocument(norm), m);
    hide ByKey, DocumentKey;
    forall k | 0 <= k < |b| ensures SameDocument(m[k], b[k]) {
      ProjectedFieldsSame(norm, m[k].fields);
    }
    assert Rearranged(ds, m);
  }

  /** The projection of a Case is that Case, listed in another order: no row, document or member is lost or changed. */
  lemma ProjectionSame(norm: Norm, c: Case)
    ensures SameCase(c, Project(norm, c))
  {
    ProjectedDocumentsSame(norm, c.documents);
    SortedRearranged(c.event.links, LinkKey(norm));
    SortedRearranged(c.event.approvals, ApprovalKey(norm));
    SortedRearranged(c.event.evidence, EvidenceKey(norm));
    SortedRearranged(c.event.required, RequiredKey(norm));
    hide SameDocuments, SortedOption, IdentityKey, LinkKey, ApprovalKey, EvidenceKey, RequiredKey, ByKey, DocumentKey, ProjectDocument, Mapped;
    assert Rearranged(c.event.steps, Sort(c.event.steps, ByKey(IdentityKey(norm))));
    assert Rearranged(c.event.characteristics, Sort(c.event.characteristics, ByKey(IdentityKey(norm))));
  }

  /** Cases with one projection are one Case in two listings. */
  lemma EqualProjectionsSame(norm: Norm, a: Case, b: Case)
    requires Project(norm, a) == Project(norm, b)
    ensures SameCase(a, b)
  {
    hide SameCase, Project;
    ProjectionSame(norm, a);
    ProjectionSame(norm, b);
    SameCaseSymmetric(b, Project(norm, b));
    SameCaseTransitive(a, Project(norm, a), b);
  }

  /** When the approvals of a validated native Case stay apart, another Case has its projection, and with it its
      canonical hash, exactly when it is the same Case in some listing. */
  lemma ProjectionIff(norm: Norm, a: Case, b: Case)
    requires Validated(norm, a) && ApprovalsApart(norm, a)
    ensures Project(norm, a) == Project(norm, b) <==> SameCase(a, b)
  {
    CanonicalIff(norm, a);
    hide Validated, ApprovalsApart, SameCase, Project;
    if Project(norm, a) == Project(norm, b) {
      EqualProjectionsSame(norm, a, b);
    }
  }

  // ---------- The order it puts things in ----------

  predicate PairLe(a: string, b: string, c: string, d: string) {
    TextLe(a, c) && (a == c ==> TextLe(b, d))
  }

  predicate TripleLe(a: string, b: string, c: string, d: string, e: string, f: string) {
    TextLe(a, d) && (a == d ==> PairLe(b, c, e, f))
  }

  ghost predicate Ascending<T(!new)>(items: seq<T>, le: (T, T) -> bool) {
    forall i, j :: 0 <= i < j < |items| ==> le(items[i], items[j])
  }

  ghost predicate AscendingOption(items: Option<seq<Json>>, le: (Json, Json) -> bool) {
    items.Some? ==> Ascending(items.value, le)
  }

  function Key(norm: Norm, item: Json, name: string): string {
    norm(Member(item, name))
  }

  ghost predicate EventInOrder(norm: Norm, e: Event) {
    && Ascending(e.steps, (x, y) => TextLe(norm(TextOf(x)), norm(TextOf(y))))
    && Ascending(e.characteristics, (x, y) => TextLe(norm(TextOf(x)), norm(TextOf(y))))
    && AscendingOption(e.links, (x, y) => PairLe(Key(norm, x, "process_step_id"), Key(norm, x, "characteristic_id"),
                                                 Key(norm, y, "process_step_id"), Key(norm, y, "characteristic_id")))
    && AscendingOption(e.approvals, (x, y) => PairLe(Key(norm, x, "role"), Key(norm, x, "event_revision"),
                                                     Key(norm, y, "role"), Key(norm, y, "event_revision")))
    && AscendingOption(e.evidence, (x, y) => TextLe(Key(norm, x, "evidence_id"), Key(norm, y, "evidence_id")))
    && AscendingOption(e.required, (x, y) => PairLe(Key(norm, x, "evidence_id"), Member(x, "evidence_id"),
                                                    Key(norm, y, "evidence_id"), Member(y, "evidence_id")))
  }

  ghost predicate FieldsInOrder(norm: Norm, f: Fields) {
    && AscendingOption(f.steps, (x, y) => TextLe(norm(TextOf(x)), norm(TextOf(y))))
    && AscendingOption(f.characteristics,
         (x, y) => TripleLe(Key(norm, x, "process_step_id"), Key(norm, x, "characteristic_id"), Key(norm, x, "control_id"),
                            Key(norm, y, "process_step_id"), Key(norm, y, "characteristic_id"), Key(norm, y, "control_id")))
    && AscendingOption(f.risks,
         (x, y) => TripleLe(Key(norm, x, "process_step_id"), Key(norm, x, "characteristic_id"), Key(norm, x, "failure_mode_id"),
                            Key(norm, y, "process_step_id"), Key(norm, y, "characteristic_id"), Key(norm, y, "failure_mode_id")))
  }

  lemma SortedAscends(items: Option<seq<Json>>, key: Json -> seq<string>, le: (Json, Json) -> bool)
    requires forall x, y :: KeyLe(key(x), key(y)) ==> le(x, y)
    ensures AscendingOption(SortedOption(items, key), le)
  {
    if items.Some? {
      ListAscends(items.value, key, le);
    }
  }

  lemma ListAscends<T(!new)>(items: seq<T>, key: T -> seq<string>, le: (T, T) -> bool)
    requires forall x, y :: KeyLe(key(x), key(y)) ==> le(x, y)
    ensures Ascending(Sort(items, ByKey(key)), le)
  {
    SortSorts(items, ByKey(key));
    hide KeyLe;
  }

  lemma EventOrdered(norm: Norm, e: Event)
    ensures EventInOrder(norm, ProjectEvent(norm, e))
  {
    hide TextLe, Member, TextOf, ByKey, Sort, AscendingOption, Ascending, SortedOption;
    ListAscends(e.steps, IdentityKey(norm), (x, y) => TextLe(norm(TextOf(x)), norm(TextOf(y))));
    ListAscends(e.characteristics, IdentityKey(norm), (x, y) => TextLe(norm(TextOf(x)), norm(TextOf(y))));
    SortedAscends(e.links, LinkKey(norm), (x, y) => PairLe(Key(norm, x, "process_step_id"), Key(norm, x, "characteristic_id"),
                                                           Key(norm, y, "process_step_id"), Key(norm, y, "characteristic_id")));
    SortedAscends(e.approvals, ApprovalKey(norm), (x, y) => PairLe(Key(norm, x, "role"), Key(norm, x, "event_revision"),
                                                                   Key(norm, y, "role"), Key(norm, y, "event_revision")));
    SortedAscends(e.evidence, EvidenceKey(norm), (x, y) => TextLe(Key(norm, x, "evidence_id"), Key(norm, y, "evidence_id")));
    SortedAscends(e.required, RequiredKey(norm), (x, y) => PairLe(Key(norm, x, "evidence_id"), Member(x, "evidence_id"),
                                                                  Key(norm, y, "evidence_id"), Member(y, "evidence_id")));
  }

  lemma TripleKey(a: string, b: string, c: string, d: string, e: string, f: string)
    requires KeyLe([a, b, c], [d, e, f])
    ensures TripleLe(a, b, c, d, e, f)
  {
    hide TextLe;
    KeyParts([a, b, c], [d, e, f]);
    assert [a, b, c][1..] == [b, c] && [d, e, f][1..] == [e, f];
    if a == d {
      KeyParts([b, c], [e, f]);
      assert [b, c][1..] == [c] && [e, f][1..] == [f];
      if b == e {
        KeyParts([c], [f]);
      }
    }
  }

  lemma KeyParts(x: seq<string>, y: seq<string>)
    requires KeyLe(x, y) && x != [] && y != []
    ensures TextLe(x[0], y[0]) && (x[0] == y[0] ==> KeyLe(x[1..], y[1..]))
  {
    hide TextLe;
  }

  lemma TripleKeys(norm: Norm, third: string, key: Json -> seq<string>)
    requires forall x :: key(x) == [Key(norm, x, "process_step_id"), Key(norm, x, "characteristic_id"), Key(norm, x, third)]
    ensures forall x, y :: KeyLe(key(x), key(y)) ==>
      TripleLe(Key(norm, x, "process_step_id"), Key(norm, x, "characteristic_id"), Key(norm, x, third),
               Key(norm, y, "process_step_id"), Key(norm, y, "characteristic_id"), Key(norm, y, third))
  {
    hide KeyLe, TripleLe, Key;
    forall x, y | KeyLe(key(x), key(y))
      ensures TripleLe(Key(norm, x, "process_step_id"), Key(norm, x, "characteristic_id"), Key(norm, x, third),
                       Key(norm, y, "process_step_id"), Key(norm, y, "characteristic_id"), Key(norm, y, third))
    {
      TripleKey(Key(norm, x, "process_step_id"), Key(norm, x, "characteristic_id"), Key(norm, x, third),
                Key(norm, y, "process_step_id"), Key(norm, y, "characteristic_id"), Key(norm, y, third));
    }
  }

  lemma FieldsOrdered(norm: Norm, f: Fields)
    ensures FieldsInOrder(norm, ProjectFields(norm, f))
  {
    hide TextLe, Member, TextOf, ByKey, Sort, AscendingOption, Ascending, SortedOption;
    TripleKeys(norm, "control_id", CharacteristicKey(norm));
    TripleKeys(norm, "failure_mode_id", RiskKey(norm));
    SortedAscends(f.steps, IdentityKey(norm), (x, y) => TextLe(norm(TextOf(x)), norm(TextOf(y))));
    hide KeyLe, Key, CharacteristicKey, RiskKey;
    SortedAscends(f.characteristics, CharacteristicKey(norm),
      (x, y) => TripleLe(Key(norm, x, "process_step_id"), Key(norm, x, "characteristic_id"), Key(norm, x, "control_id"),
                         Key(norm, y, "process_step_id"), Key(norm, y, "characteristic_id"), Key(norm, y, "control_id")));
    SortedAscends(f.risks, RiskKey(norm),
      (x, y) => TripleLe(Key(norm, x, "process_step_id"), Key(norm, x, "characteristic_id"), Key(norm, x, "failure_mode_id"),
                         Key(norm, y, "process_step_id"), Key(norm, y, "characteristic_id"), Key(norm, y, "failure_mode_id")));
  }

  lemma DocumentsOrdered(norm: Norm, c: Case)
    ensures Ascending(Sort(c.documents, ByKey(DocumentKey(norm))), (x: Document, y: Document) => TextLe(norm(x.id), norm(y.id)))
  {
    hide ByKey, Sort, TextLe, Ascending;
    ListAscends(c.documents, DocumentKey(norm), (x: Document, y: Document) => TextLe(norm(x.id), norm(y.id)));
  }

  /** Every list of the projection ascends by the normalized names it is sorted by. */
  lemma ProjectionOrdered(norm: Norm, c: Case)
    ensures var p := Project(norm, c);
      && EventInOrder(norm, p.event) && Ascending(p.documents, (x: Document, y: Document) => TextLe(norm(x.id), norm(y.id)))
      && forall k :: 0 <= k < |p.documents| ==> FieldsInOrder(norm, p.documents[k].fields)
  {
    hide EventInOrder, FieldsInOrder, ProjectEvent, ProjectFields, ByKey, Sort, TextLe, DocumentKey;
    EventOrdered(norm, c.event);
    DocumentsOrdered(norm, c);
    var ds := Sort(c.documents, ByKey(DocumentKey(norm)));
    forall k | 0 <= k < |ds| ensures FieldsInOrder(norm, Project(norm, c).documents[k].fields) {
      FieldsOrdered(norm, ds[k].fields);
    }
  }

  // ---------- Idempotence ----------

  lemma SortedTwice(items: Option<seq<Json>>, key: Json -> seq<string>)
    ensures SortedOption(SortedOption(items, key), key) == SortedOption(items, key)
  {
    if items.Some? {
      SortIdempotent(items.value, ByKey(key));
    }
  }

  lemma FieldsTwice(norm: Norm, f: Fields)
    ensures ProjectFields(norm, ProjectFields(norm, f)) == ProjectFields(norm, f)
  {
    hide SortedOption, IdentityKey, CharacteristicKey, RiskKey;
    SortedTwice(f.steps, IdentityKey(norm));
    SortedTwice(f.characteristics, CharacteristicKey(norm));
    SortedTwice(f.risks, RiskKey(norm));
  }

  lemma EventTwice(norm: Norm, e: Event)
    ensures ProjectEvent(norm, ProjectEvent(norm, e)) == ProjectEvent(norm, e)
  {
    hide SortedOption, IdentityKey, LinkKey, ApprovalKey, EvidenceKey, RequiredKey;
    SortIdempotent(e.steps, ByKey(IdentityKey(norm)));
    SortIdempotent(e.characteristics, ByKey(IdentityKey(norm)));
    SortedTwice(e.links, LinkKey(norm));
    SortedTwice(e.approvals, ApprovalKey(norm));
    SortedTwice(e.evidence, EvidenceKey(norm));
    SortedTwice(e.required, RequiredKey(norm));
  }

  lemma MappedTwice(norm: Norm, ds: seq<Document>)
    ensures Mapped(ProjectDocument(norm), Mapped(ProjectDocument(norm), ds)) == Mapped(ProjectDocument(norm), ds)
  {
    forall k | 0 <= k < |ds| ensures ProjectDocument(norm)(ProjectDocument(norm)(ds[k])) == ProjectDocument(norm)(ds[k]) {
      FieldsTwice(norm, ds[k].fields);
    }
  }

  lemma DocumentsTwice(norm: Norm, ds: seq<Document>)
    ensures var once := Mapped(ProjectDocument(norm), Sort(ds, ByKey(DocumentKey(norm))));
      Mapped(ProjectDocument(norm), Sort(once, ByKey(DocumentKey(norm)))) == once
  {
    var f, le := ProjectDocument(norm), ByKey(DocumentKey(norm));
    hide ByKey, ProjectDocument, Sort, DocumentKey, Mapped;
    var once := Mapped(f, Sort(ds, le));
    ProjectedSort(norm, ds);
    SortIdempotent(Mapped(f, ds), le);
    MappedTwice(norm, Sort(ds, le));
  }

  /** Projecting twice is projecting once, for every Case. */
  lemma ProjectionIdempotent(norm: Norm, c: Case)
    ensures Project(norm, Project(norm, c)) == Project(norm, c)
  {
    hide ProjectEvent, ProjectDocument, DocumentKey, ByKey;
    EventTwice(norm, c.event);
    DocumentsTwice(norm, c.documents);
  }

  // ---------- The validation subject ----------

  function SubjectKey(casefold: Norm): Json -> seq<string> {
    (item: Json) => [casefold(Member(item, "evidence_id")), Member(item, "evidence_id")]
  }

  const EVENT_DOWNSTREAM: set<string> := {"validation_context", "validation_evidence_set_hash"}
  const CASE_DOWNSTREAM: set<string> :=
    {"active_mutation", "run_result", "findings", "audit", "validation_context", "validation_evidence_set_hash"}

  /** What `validation_case_subject_hash` hashes. */
  function Subject(norm: Norm, casefold: Norm, c: Case): Case {
    var p := Project(norm, c);
    p.(event := p.event.(approvals := None, evidence := None, required := SortedOption(p.event.required, SubjectKey(casefold)),
                         rest := p.event.rest - EVENT_DOWNSTREAM),
       rest := p.rest - CASE_DOWNSTREAM)
  }

  /** Alike in everything but approvals, recorded evidence, results and the active mutation. */
  ghost predicate SameUpstream(a: Case, b: Case) {
    && a.documents == b.documents && a.event.steps == b.event.steps && a.event.characteristics == b.event.characteristics
    && a.event.links == b.event.links && a.event.required == b.event.required
    && a.event.rest - {"validation_context", "validation_evidence_set_hash"} == b.event.rest - {"validation_context", "validation_evidence_set_hash"}
    && a.rest - {"active_mutation", "run_result", "findings", "audit", "validation_context", "validation_evidence_set_hash"}
      == b.rest - {"active_mutation", "run_result", "findings", "audit", "validation_context", "validation_evidence_set_hash"}
  }

  /** The subject ignores approvals, recorded evidence, results and the active mutation. */
  lemma SubjectIgnoresDownstream(norm: Norm, casefold: Norm, a: Case, b: Case)
    requires SameUpstream(a, b)
    ensures Subject(norm, casefold, a) == Subject(norm, casefold, b)
  {
    hide Sort, ByKey, IdentityKey, LinkKey, RequiredKey, SubjectKey, SortedOption;
  }

  /** The subject of a validated Case forgets every listing order, approvals included. */
  lemma SubjectForgetsOrder(norm: Norm, casefold: Norm, a: Case, b: Case)
    requires Validated(norm, a) && SameCase(a, b)
    ensures Subject(norm, casefold, a) == Subject(norm, casefold, b)
  {
    ValidatedSettled(norm, a);
    ProjectionAgrees(norm, a, b);
    hide Validated, Settled, RowsApart, MigratedValidated, SameCase, SubjectKey, ProjectEvent, SortedOption, ProjectDocument, DocumentKey, ByKey, Sort;
    var x, y := ProjectEvent(norm, a.event), ProjectEvent(norm, b.event);
    assert x.(approvals := None) == y.(approvals := None);
    assert x.required == y.required && x.steps == y.steps && x.links == y.links && x.characteristics == y.characteristics && x.rest == y.rest;
  }

  lemma SortedSame(a: seq<Json>, b: seq<Json>, key: Json -> seq<string>)
    requires Sort(a, ByKey(key)) == Sort(b, ByKey(key))
    ensures Rearranged(a, b)
  {
    assert multiset(Sort(a, ByKey(key))) == multiset(a);
    assert multiset(Sort(b, ByKey(key))) == multiset(b);
  }

  lemma SortedOptionSame(a: Option<seq<Json>>, b: Option<seq<Json>>, key: Json -> seq<string>)
    requires SortedOption(a, key) == SortedOption(b, key)
    ensures RearrangedOption(a, b)
  {
    if a.Some? {
      SortedSame(a.value, b.value, key);
    }
  }

  lemma SortedTwiceSame(a: Option<seq<Json>>, b: Option<seq<Json>>, first: Json -> seq<string>, second: Json -> seq<string>)
    requires SortedOption(SortedOption(a, first), second) == SortedOption(SortedOption(b, first), second)
    ensures RearrangedOption(a, b)
  {
    SortedOptionSame(SortedOption(a, first), SortedOption(b, first), second);
    if a.Some? {
      assert multiset(Sort(a.value, ByKey(first))) == multiset(a.value);
      assert multiset(Sort(b.value, ByKey(first))) == multiset(b.value);
    }
  }

  /** What equal subjects have in common: every document and every part of the event but approvals and recorded
      evidence. */
  lemma SubjectParts(norm: Norm, casefold: Norm, a: Case, b: Case)
    requires Subject(norm, casefold, a) == Subject(norm, casefold, b)
    ensures Rearranged(a.event.steps, b.event.steps) && Rearranged(a.event.characteristics, b.event.characteristics)
    ensures RearrangedOption(a.event.links, b.event.links) && RearrangedOption(a.event.required, b.event.required)
    ensures a.event.rest - EVENT_DOWNSTREAM == b.event.rest - EVENT_DOWNSTREAM && a.rest - CASE_DOWNSTREAM == b.rest - CASE_DOWNSTREAM
    ensures SameDocuments(a.documents, b.documents)
  {
    var x, y := Subject(norm, casefold, a), Subject(norm, casefold, b);
    ProjectedDocumentsSame(norm, a.documents);
    ProjectedDocumentsSame(norm, b.documents);
    hide Sort, ByKey, SortedOption, Rearranged, RearrangedOption, IdentityKey, LinkKey, RequiredKey, SubjectKey, DocumentKey, SameDocuments, Mapped;
    assert x.event.steps == y.event.steps && x.event.characteristics == y.event.characteristics && x.event.links == y.event.links;
    SortedSame(a.event.steps, b.event.steps, IdentityKey(norm));
    SortedSame(a.event.characteristics, b.event.characteristics, IdentityKey(norm));
    SortedOptionSame(a.event.links, b.event.links, LinkKey(norm));
    assert x.event.required == y.event.required;
    SortedTwiceSame(a.event.required, b.event.required, RequiredKey(norm), SubjectKey(casefold));
    assert x.event.rest == y.event.rest && x.rest == y.rest && x.documents == y.documents;
    SameDocumentsSymmetric(b.documents, y.documents);
    SameDocumentsTransitive(a.documents, x.documents, b.documents);
  }

  /** One Case up to listing order, approvals, recorded evidence, results and the active mutation. */
  ghost predicate SameSubject(a: Case, b: Case) {
    exists c :: SameCase(a, c) && SameUpstream(c, b)
  }

  /** The second Case with the downstream parts of the first lies between them. */
  lemma Between(a: Case, b: Case)
    requires Rearranged(a.event.steps, b.event.steps) && Rearranged(a.event.characteristics, b.event.characteristics)
    requires RearrangedOption(a.event.links, b.event.links) && RearrangedOption(a.event.required, b.event.required)
    requires a.event.rest - EVENT_DOWNSTREAM == b.event.rest - EVENT_DOWNSTREAM && a.rest - CASE_DOWNSTREAM == b.rest - CASE_DOWNSTREAM
    requires SameDocuments(a.documents, b.documents)
    ensures SameSubject(a, b)
  {
    hide SameDocuments, Rearranged;
    var c := Case(b.event.(approvals := a.event.approvals, evidence := a.event.evidence, rest := a.event.rest), b.documents, a.rest);
    assert SameCase(a, c) by {
      RearrangedSelf(a.event.approvals);
      RearrangedSelf(a.event.evidence);
    }
    assert SameUpstream(c, b) by {
      hide SameCase;
    }
  }

  lemma RearrangedSelf(items: Option<seq<Json>>)
    ensures RearrangedOption(items, items)
  {}

  /** Two Cases have one validation subject exactly when they differ in listing order and downstream parts only: any
      other change of event, documents, plan or other members is seen. */
  lemma SubjectIff(norm: Norm, casefold: Norm, a: Case, b: Case)
    requires Validated(norm, a)
    ensures Subject(norm, casefold, a) == Subject(norm, casefold, b) <==> SameSubject(a, b)
  {
    if Subject(norm, casefold, a) == Subject(norm, casefold, b) {
      SubjectParts(norm, casefold, a, b);
      hide Subject, Validated, SameDocuments;
      Between(a, b);
    }
    if SameSubject(a, b) {
      hide Subject, Validated, SameCase, SameUpstream;
      var c :| SameCase(a, c) && SameUpstream(c, b);
      SubjectForgetsOrder(norm, casefold, a, c);
      SubjectIgnoresDownstream(norm, casefold, c, b);
    }
  }
}

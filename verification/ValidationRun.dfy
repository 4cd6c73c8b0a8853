/** Validation evidence in a source-rooted run: the context is prepared for one Case, guarded against every other,
    and rule R006 is evaluated on that Case. */
module ValidationRun {
  import opened Json
  import opened Ordering
  import opened ValidationEvidence
  import opened RelationRules
  import B = EvidenceBundle
  import C = Canonical

  /** Text reading and the two domain-separated hashes. */
  datatype World = World(norm: C.Norm, casefold: C.Norm, at: string -> int, subjectHash: C.Case -> string, scopeHash: Scope -> string)

  // ---------- The scope ----------

  /** What `validation_scope_digest` hashes; the ruleset version is fixed. */
  datatype Scope = Scope(caseId: Option<Json>, eventId: Option<Json>, revision: Option<Json>, kind: Option<Json>, riskLevel: Option<Json>,
                         steps: seq<Json>, characteristics: seq<Json>, links: seq<Json>, plan: Option<Json>, required: Option<seq<Json>>,
                         schema: Option<Json>)

  function Named(members: map<string, Json>, name: string): Option<Json> {
    if name in members then Some(members[name]) else None
  }

  /** Plain text order, where the projection sorts by normalized text. */
  function TextKey(): Json -> seq<string> {
    (item: Json) => [C.TextOf(item)]
  }

  function PairKey(): Json -> seq<string> {
    (item: Json) => [C.Member(item, "process_step_id"), C.Member(item, "characteristic_id")]
  }

  function SortedLinks(links: Option<seq<Json>>): seq<Json> {
    if links.Some? then Sort(links.value, ByKey(PairKey())) else []
  }

  /** The plan's members beside its evidence list stay in `rest`. */
  function ScopeOf(casefold: C.Norm, c: C.Case): Scope {
    var e := c.event;
    Scope(Named(c.rest, "case_id"), Named(e.rest, "event_id"), Named(e.rest, "revision"), Named(e.rest, "event_type"), Named(e.rest, "risk_level"),
          Sort(e.steps, ByKey(TextKey())), Sort(e.characteristics, ByKey(TextKey())), SortedLinks(e.links),
          Named(e.rest, "validation_plan"), C.SortedOption(e.required, C.SubjectKey(casefold)), Named(c.rest, "schema_version"))
  }

  // ---------- The scope follows from the subject ----------

  lemma TextRefines(norm: C.Norm)
    ensures forall x, y :: TextKey()(x) == TextKey()(y) ==> C.IdentityKey(norm)(x) == C.IdentityKey(norm)(y)
  {
    forall x, y | TextKey()(x) == TextKey()(y) ensures C.IdentityKey(norm)(x) == C.IdentityKey(norm)(y) {
      assert TextKey()(x)[0] == TextKey()(y)[0];
    }
  }

  lemma PairRefines(norm: C.Norm)
    ensures forall x, y :: PairKey()(x) == PairKey()(y) ==> C.LinkKey(norm)(x) == C.LinkKey(norm)(y)
  {
    forall x, y | PairKey()(x) == PairKey()(y) ensures C.LinkKey(norm)(x) == C.LinkKey(norm)(y) {
      assert PairKey()(x)[0] == PairKey()(y)[0] && PairKey()(x)[1] == PairKey()(y)[1];
    }
  }

  lemma SubjectRefines(norm: C.Norm, casefold: C.Norm)
    ensures forall x, y :: C.SubjectKey(casefold)(x) == C.SubjectKey(casefold)(y) ==> C.EvidenceKey(norm)(x) == C.EvidenceKey(norm)(y)
  {
    forall x, y | C.SubjectKey(casefold)(x) == C.SubjectKey(casefold)(y) ensures C.EvidenceKey(norm)(x) == C.EvidenceKey(norm)(y) {
      assert C.SubjectKey(casefold)(x)[1] == C.SubjectKey(casefold)(y)[1];
    }
  }

  /** Alike in every part of the event the scope reads, listing order aside. */
  ghost predicate SameScoped(a: C.Event, b: C.Event) {
    && C.Rearranged(a.steps, b.steps) && C.Rearranged(a.characteristics, b.characteristics)
    && C.RearrangedOption(a.links, b.links) && C.RearrangedOption(a.required, b.required)
    && a.rest - C.EVENT_DOWNSTREAM == b.rest - C.EVENT_DOWNSTREAM
  }

  lemma ListsSorted(norm: C.Norm, casefold: C.Norm, a: C.Event, b: C.Event)
    requires C.EventUnique(norm, a) && SameScoped(a, b)
    ensures Sort(a.steps, ByKey(TextKey())) == Sort(b.steps, ByKey(TextKey()))
    ensures Sort(a.characteristics, ByKey(TextKey())) == Sort(b.characteristics, ByKey(TextKey()))
    ensures SortedLinks(a.links) == SortedLinks(b.links)
    ensures C.SortedOption(a.required, C.SubjectKey(casefold)) == C.SortedOption(b.required, C.SubjectKey(casefold))
  {
    TextRefines(norm);
    PairRefines(norm);
    SubjectRefines(norm, casefold);
    hide TextKey, PairKey, C.SubjectKey, C.IdentityKey, C.LinkKey, C.EvidenceKey, C.DistinctBy, Sort, ByKey;
    C.SortAgrees(a.steps, b.steps, C.IdentityKey(norm), TextKey());
    C.SortAgrees(a.characteristics, b.characteristics, C.IdentityKey(norm), TextKey());
    C.OptionAgrees(a.required, b.required, C.EvidenceKey(norm), C.SubjectKey(casefold));
    if a.links.Some? {
      C.SortAgrees(a.links.value, b.links.value, C.LinkKey(norm), PairKey());
    }
  }

  lemma UpstreamNames(a: map<string, Json>, b: map<string, Json>, removed: set<string>, name: string)
    requires a - removed == b - removed && name !in removed
    ensures Named(a, name) == Named(b, name)
  {
    assert name in a <==> name in a - removed;
    assert name in b <==> name in b - removed;
    assert name in a ==> (a - removed)[name] == a[name];
    assert name in b ==> (b - removed)[name] == b[name];
  }

  lemma EventNames(a: C.Event, b: C.Event)
    requires a.rest - C.EVENT_DOWNSTREAM == b.rest - C.EVENT_DOWNSTREAM
    ensures Named(a.rest, "event_id") == Named(b.rest, "event_id") && Named(a.rest, "revision") == Named(b.rest, "revision")
    ensures Named(a.rest, "event_type") == Named(b.rest, "event_type") && Named(a.rest, "risk_level") == Named(b.rest, "risk_level")
    ensures Named(a.rest, "validation_plan") == Named(b.rest, "validation_plan")
  {
    hide Named;
    UpstreamNames(a.rest, b.rest, C.EVENT_DOWNSTREAM, "event_id");
    UpstreamNames(a.rest, b.rest, C.EVENT_DOWNSTREAM, "revision");
    UpstreamNames(a.rest, b.rest, C.EVENT_DOWNSTREAM, "event_type");
    UpstreamNames(a.rest, b.rest, C.EVENT_DOWNSTREAM, "risk_level");
    UpstreamNames(a.rest, b.rest, C.EVENT_DOWNSTREAM, "validation_plan");
  }

  lemma CaseNames(a: C.Case, b: C.Case)
    requires a.rest - C.CASE_DOWNSTREAM == b.rest - C.CASE_DOWNSTREAM
    ensures Named(a.rest, "case_id") == Named(b.rest, "case_id") && Named(a.rest, "schema_version") == Named(b.rest, "schema_version")
  {
    hide Named;
    UpstreamNames(a.rest, b.rest, C.CASE_DOWNSTREAM, "case_id");
    UpstreamNames(a.rest, b.rest, C.CASE_DOWNSTREAM, "schema_version");
  }

  lemma ScopeAgrees(norm: C.Norm, casefold: C.Norm, a: C.Case, b: C.Case)
    requires C.Validated(norm, a) && SameScoped(a.event, b.event) && a.rest - C.CASE_DOWNSTREAM == b.rest - C.CASE_DOWNSTREAM
    ensures ScopeOf(casefold, a) == ScopeOf(casefold, b)
  {
    ListsSorted(norm, casefold, a.event, b.event);
    EventNames(a.event, b.event);
    CaseNames(a, b);
    hide C.EventUnique, C.DistinctBy, Sort, ByKey, Named, SortedLinks, C.SortedOption, SameScoped;
  }

  /** The scope of a validated Case forgets every listing order. */
  lemma ScopeForgetsOrder(norm: C.Norm, casefold: C.Norm, a: C.Case, b: C.Case)
    requires C.Validated(norm, a) && C.SameCase(a, b)
    ensures ScopeOf(casefold, a) == ScopeOf(casefold, b)
  {
    hide ScopeOf, C.Validated, C.SameDocuments;
    ScopeAgrees(norm, casefold, a, b);
  }

  /** Equal subjects agree on every part of the event but approvals and recorded evidence. */
  lemma SubjectParts(w: World, a: C.Case, b: C.Case)
    requires C.Subject(w.norm, w.casefold, a) == C.Subject(w.norm, w.casefold, b)
    ensures SameScoped(a.event, b.event) && a.rest - C.CASE_DOWNSTREAM == b.rest - C.CASE_DOWNSTREAM
  {
    hide C.Subject, C.Rearranged, C.RearrangedOption;
    C.SubjectParts(w.norm, w.casefold, a, b);
  }

  /** The subject fixes the scope, so the scope digest never tells apart what the subject hash does not. */
  lemma SubjectFixesScope(w: World, a: C.Case, b: C.Case)
    requires C.Validated(w.norm, a) && C.Subject(w.norm, w.casefold, a) == C.Subject(w.norm, w.casefold, b)
    ensures ScopeOf(w.casefold, a) == ScopeOf(w.casefold, b)
  {
    hide ScopeOf, C.Validated, C.Subject;
    SubjectParts(w, a, b);
    ScopeAgrees(w.norm, w.casefold, a, b);
  }

  predicate SameMember(a: map<string, Json>, b: map<string, Json>, name: string) {
    (name in a <==> name in b) && (name in a && name in b ==> a[name] == b[name])
  }

  function Listed(items: Option<seq<Json>>): seq<Json> {
    if items.Some? then items.value else []
  }

  /** What one scope stands for: the identifiers, the plan, and the affected steps, characteristics and links in any
      order. */
  ghost predicate SameScope(a: C.Case, b: C.Case) {
    && SameMember(a.rest, b.rest, "case_id") && SameMember(a.rest, b.rest, "schema_version")
    && SameMember(a.event.rest, b.event.rest, "event_id") && SameMember(a.event.rest, b.event.rest, "revision")
    && SameMember(a.event.rest, b.event.rest, "event_type") && SameMember(a.event.rest, b.event.rest, "risk_level")
    && SameMember(a.event.rest, b.event.rest, "validation_plan")
    && multiset(a.event.steps) == multiset(b.event.steps) && multiset(a.event.characteristics) == multiset(b.event.characteristics)
    && multiset(Listed(a.event.links)) == multiset(Listed(b.event.links)) && C.RearrangedOption(a.event.required, b.event.required)
  }

  lemma LinksSame(norm: C.Norm, a: Option<seq<Json>>, b: Option<seq<Json>>)
    requires C.DistinctOption(a, C.LinkKey(norm))
    ensures SortedLinks(a) == SortedLinks(b) <==> multiset(Listed(a)) == multiset(Listed(b))
  {
    PairRefines(norm);
    hide PairKey, C.LinkKey, ByKey;
    assert multiset(SortedLinks(a)) == multiset(Listed(a)) && multiset(SortedLinks(b)) == multiset(Listed(b));
    if multiset(Listed(a)) == multiset(Listed(b)) {
      C.SortAgrees(Listed(a), Listed(b), C.LinkKey(norm), PairKey());
      assert Sort<Json>([], ByKey(PairKey())) == [];
    }
  }

  lemma TextsSame(norm: C.Norm, a: seq<Json>, b: seq<Json>)
    requires C.DistinctBy(a, C.IdentityKey(norm))
    ensures Sort(a, ByKey(TextKey())) == Sort(b, ByKey(TextKey())) <==> multiset(a) == multiset(b)
  {
    TextRefines(norm);
    hide TextKey, C.IdentityKey, ByKey;
    assert multiset(Sort(a, ByKey(TextKey()))) == multiset(a) && multiset(Sort(b, ByKey(TextKey()))) == multiset(b);
    if multiset(a) == multiset(b) {
      C.SortAgrees(a, b, C.IdentityKey(norm), TextKey());
    }
  }

  lemma RequiredSame(norm: C.Norm, casefold: C.Norm, a: Option<seq<Json>>, b: Option<seq<Json>>)
    requires C.DistinctOption(a, C.EvidenceKey(norm))
    ensures C.SortedOption(a, C.SubjectKey(casefold)) == C.SortedOption(b, C.SubjectKey(casefold)) <==> C.RearrangedOption(a, b)
  {
    SubjectRefines(norm, casefold);
    hide C.SubjectKey, C.EvidenceKey, C.SortedOption;
    if C.RearrangedOption(a, b) {
      C.OptionAgrees(a, b, C.EvidenceKey(norm), C.SubjectKey(casefold));
    }
    if C.SortedOption(a, C.SubjectKey(casefold)) == C.SortedOption(b, C.SubjectKey(casefold)) {
      C.SortedOptionSame(a, b, C.SubjectKey(casefold));
    }
  }

  /** The scope of a validated Case is another's exactly when they agree in all that. */
  lemma ScopeIff(norm: C.Norm, casefold: C.Norm, a: C.Case, b: C.Case)
    requires C.Validated(norm, a)
    ensures ScopeOf(casefold, a) == ScopeOf(casefold, b) <==> SameScope(a, b)
  {
    TextsSame(norm, a.event.steps, b.event.steps);
    TextsSame(norm, a.event.characteristics, b.event.characteristics);
    LinksSame(norm, a.event.links, b.event.links);
    RequiredSame(norm, casefold, a.event.required, b.event.required);
    hide C.DistinctBy, C.DistinctOption, Sort, ByKey, SortedLinks, C.SortedOption, C.RearrangedOption, Listed;
  }

  // ---------- The plan and the event of a Case ----------

  function Text(members: map<string, Json>, name: string): string {
    match Named(members, name)
    case Some(Str(s)) => s
    case _ => ""
  }

  function RequirementOf(w: World): Json -> Requirement {
    (item: Json) => Requirement(C.Member(item, "evidence_id"), C.Member(item, "evidence_type"), C.Member(item, "claim"), C.Member(item, "issuer_id"),
                                C.Member(item, "issuer_role"), w.at(C.Member(item, "valid_from")), w.at(C.Member(item, "valid_until")))
  }

  function PlanOf(w: World, c: C.Case): Option<seq<Requirement>> {
    if c.event.required.Some? then Some(Mapped(RequirementOf(w), c.event.required.value)) else None
  }

  function EventOf(c: C.Case): Event {
    Event(Text(c.event.rest, "event_id"), Text(c.event.rest, "revision"), Text(c.rest, "schema_version"))
  }

  function SubjectHash(w: World, c: C.Case): string {
    w.subjectHash(C.Subject(w.norm, w.casefold, c))
  }

  function ScopeHash(w: World, c: C.Case): string {
    w.scopeHash(ScopeOf(w.casefold, c))
  }

  /** The context a Case's own reports are compared under. */
  function ContextFor(w: World, c: C.Case, reports: seq<Report>): Context {
    Context(ScopeHash(w, c), SubjectHash(w, c), reports)
  }

  lemma PlanDistinct(w: World, c: C.Case)
    requires C.Validated(w.norm, c) && c.event.required.Some?
    ensures DistinctRequirements(PlanOf(w, c).value)
  {
    var items := c.event.required.value;
    forall i, j | 0 <= i < j < |items| ensures C.Member(items[i], "evidence_id") != C.Member(items[j], "evidence_id") {
      assert C.EvidenceKey(w.norm)(items[i]) != C.EvidenceKey(w.norm)(items[j]);
    }
  }

  // ---------- The guard ----------

  datatype Sealed = Sealed(phase: string, context: Context)

  /** The context was prepared for this Case and phase. */
  predicate Fits(w: World, c: C.Case, phase: string, s: Sealed) {
    s.phase == phase && s.context.subject == SubjectHash(w, c) && s.context.scope == ScopeHash(w, c)
  }

  /** The reports answer the Case's plan one to one under its own hashes. */
  ghost predicate Serves(w: World, c: C.Case, reports: seq<Report>) {
    c.event.required.Some? && OneToOne(EventOf(c), ContextFor(w, c, reports), PlanOf(w, c).value)
  }

  /** The report claims this Case: its subject, scope, event, revision and schema. */
  predicate Names(w: World, c: C.Case, r: Report) {
    && r.subject == SubjectHash(w, c) && r.scope == ScopeHash(w, c)
    && r.eventId == EventOf(c).id && r.eventRevision == EventOf(c).revision && r.schema == EventOf(c).schema
  }

  ghost predicate AllName(w: World, c: C.Case, reports: seq<Report>) {
    forall k :: 0 <= k < |reports| ==> Names(w, c, reports[k])
  }

  lemma BoundNames(w: World, c: C.Case, reports: seq<Report>, q: Requirement, r: Report)
    requires Binds(EventOf(c), ContextFor(w, c, reports), q, r)
    ensures Names(w, c, r)
  {
    hide SubjectHash, ScopeHash, Text;
  }

  lemma MatchedReport(e: Event, c: Context, qs: seq<Requirement>, k: nat) returns (q: Requirement)
    requires DistinctReports(c.reports) && OneToOne(e, c, qs) && k < |c.reports|
    ensures q in qs && Binds(e, c, q, c.reports[k])
  {
    hide Binds;
    assert Asked(qs, c.reports[k]);
    var i :| 0 <= i < |qs| && qs[i].id == c.reports[k].id;
    assert Bound(e, c, qs[i]);
    var m :| 0 <= m < |c.reports| && c.reports[m].id == qs[i].id && Binds(e, c, qs[i], c.reports[m]);
    assert m == k;
    q := qs[i];
  }

  lemma ServedNames(w: World, c: C.Case, reports: seq<Report>)
    requires DistinctReports(reports) && Serves(w, c, reports)
    ensures AllName(w, c, reports)
  {
    var plan := PlanOf(w, c).value;
    hide OneToOne, PlanOf, EventOf, SubjectHash, ScopeHash, Binds, Names;
    forall k | 0 <= k < |reports| ensures Names(w, c, reports[k]) {
      var q := MatchedReport(EventOf(c), ContextFor(w, c, reports), plan, k);
      BoundNames(w, c, reports, q, reports[k]);
    }
  }

  /** `_evaluate_source_rooted_case` as far as validation goes: a context prepared for another Case, scope or phase
      is refused; then R006 passes exactly when the reports serve this Case, and then each of them names it. */
  method EvaluateSourceRooted(w: World, c: C.Case, sealed: Option<Sealed>, phase: string) returns (r: Option<Status>)
    requires C.Validated(w.norm, c) && (sealed.Some? ==> DistinctReports(sealed.value.context.reports))
    ensures r.Some? <==> sealed.None? || Fits(w, c, phase, sealed.value)
    ensures r == Some(PASS) <==> sealed.Some? && Fits(w, c, phase, sealed.value) && Serves(w, c, sealed.value.context.reports)
    ensures r == Some(PASS) ==> AllName(w, c, sealed.value.context.reports)
  {
    hide C.Validated, C.Subject, ScopeOf, SubjectHash, ScopeHash, PlanOf, EventOf, AllName, OneToOne, DistinctRequirements, DistinctReports;
    if sealed.Some? && !Fits(w, c, phase, sealed.value) {
      return None;
    }
    var plan := PlanOf(w, c);
    PlanPresent(w, c);
    var context := if sealed.Some? then Some(sealed.value.context) else None;
    var status := RuleValidationEvidence(EventOf(c), plan, context);
    if status.PASS? {
      ServedNames(w, c, sealed.value.context.reports);
    }
    return Some(status);
  }

  lemma PlanPresent(w: World, c: C.Case)
    requires C.Validated(w.norm, c)
    ensures PlanOf(w, c).Some? <==> c.event.required.Some?
    ensures PlanOf(w, c).Some? ==> DistinctRequirements(PlanOf(w, c).value)
  {
    if c.event.required.Some? {
      PlanDistinct(w, c);
    }
  }

  /** The member holds that text; a member that is no text counts as empty. */
  predicate HoldsText(members: map<string, Json>, name: string, text: string) {
    if name in members && members[name].Str? then members[name].s == text else text == ""
  }

  predicate ItemHolds(item: Json, name: string, text: string) {
    if item.Obj? then HoldsText(item.members, name, text) else text == ""
  }

  /** The report answers the plan's item: a pass, on this event, revision, schema and ruleset, with the item's claim
      and issuer, under the Case's own hashes and within the item's window. */
  ghost predicate Answers(w: World, c: C.Case, item: Json, r: Report) {
    && ItemHolds(item, "evidence_id", r.id) && r.result == "PASS"
    && HoldsText(c.event.rest, "event_id", r.eventId) && HoldsText(c.event.rest, "revision", r.eventRevision)
    && HoldsText(c.rest, "schema_version", r.schema) && r.ruleset == "qci-rules-0.6.0"
    && ItemHolds(item, "evidence_type", r.kind) && ItemHolds(item, "claim", r.claim)
    && ItemHolds(item, "issuer_id", r.issuerId) && ItemHolds(item, "issuer_role", r.issuerRole)
    && r.subject == w.subjectHash(C.Subject(w.norm, w.casefold, c)) && r.scope == w.scopeHash(ScopeOf(w.casefold, c))
    && w.at(C.Member(item, "valid_from")) <= r.performed <= r.issued <= w.at(C.Member(item, "valid_until"))
  }

  lemma HoldsIt(members: map<string, Json>, name: string, text: string)
    ensures HoldsText(members, name, text) <==> Text(members, name) == text
  {}

  lemma ItemHoldsIt(item: Json, name: string, text: string)
    ensures ItemHolds(item, name, text) <==> C.Member(item, name) == text
  {}

  lemma AnswersIff(w: World, c: C.Case, item: Json, reports: seq<Report>, r: Report)
    ensures Answers(w, c, item, r) <==> RequirementOf(w)(item).id == r.id && Binds(EventOf(c), ContextFor(w, c, reports), RequirementOf(w)(item), r)
  {
    HoldsIt(c.event.rest, "event_id", r.eventId);
    HoldsIt(c.event.rest, "revision", r.eventRevision);
    HoldsIt(c.rest, "schema_version", r.schema);
    ItemHoldsIt(item, "evidence_id", r.id);
    ItemHoldsIt(item, "evidence_type", r.kind);
    ItemHoldsIt(item, "claim", r.claim);
    ItemHoldsIt(item, "issuer_id", r.issuerId);
    ItemHoldsIt(item, "issuer_role", r.issuerRole);
    hide HoldsText, ItemHolds, Text, C.Member, C.Subject, ScopeOf;
  }

  ghost predicate ItemAnswered(w: World, c: C.Case, item: Json, reports: seq<Report>) {
    exists k :: 0 <= k < |reports| && Answers(w, c, item, reports[k])
  }

  ghost predicate ItemAsks(items: seq<Json>, r: Report) {
    exists i :: 0 <= i < |items| && ItemHolds(items[i], "evidence_id", r.id)
  }

  /** When reports serve a Case, member by member of its plan. */
  lemma ServesSays(w: World, c: C.Case, reports: seq<Report>)
    ensures Serves(w, c, reports) <==>
      && c.event.required.Some?
      && (forall i :: 0 <= i < |c.event.required.value| ==> ItemAnswered(w, c, c.event.required.value[i], reports))
      && (forall k :: 0 <= k < |reports| ==> ItemAsks(c.event.required.value, reports[k]))
  {
    if c.event.required.Some? {
      PlanItems(w, c);
      hide ItemAnswered, ItemAsks, RequirementOf, PlanOf, OneToOne, EventOf, ContextFor;
      PlanSays(w, c, c.event.required.value, PlanOf(w, c).value, reports);
    }
  }

  lemma PlanItems(w: World, c: C.Case)
    requires c.event.required.Some?
    ensures PlanOf(w, c).Some? && |PlanOf(w, c).value| == |c.event.required.value|
    ensures forall i :: 0 <= i < |c.event.required.value| ==> PlanOf(w, c).value[i] == RequirementOf(w)(c.event.required.value[i])
  {}

  lemma PlanSays(w: World, c: C.Case, items: seq<Json>, qs: seq<Requirement>, reports: seq<Report>)
    requires |qs| == |items| && forall i :: 0 <= i < |items| ==> qs[i] == RequirementOf(w)(items[i])
    ensures OneToOne(EventOf(c), ContextFor(w, c, reports), qs) <==>
      && (forall i :: 0 <= i < |items| ==> ItemAnswered(w, c, items[i], reports))
      && (forall k :: 0 <= k < |reports| ==> ItemAsks(items, reports[k]))
  {
    ContextReports(w, c, reports);
    hide Bound, Asked, ContextFor, EventOf, ItemAnswered, ItemAsks, RequirementOf;
    forall i | 0 <= i < |items| ensures ItemAnswered(w, c, items[i], reports) <==> Bound(EventOf(c), ContextFor(w, c, reports), qs[i]) {
      BoundIff(w, c, items[i], reports);
    }
    forall k | 0 <= k < |reports| ensures ItemAsks(items, reports[k]) <==> Asked(qs, reports[k]) {
      AskedIff(w, items, qs, reports[k]);
    }
  }

  lemma BoundIff(w: World, c: C.Case, item: Json, reports: seq<Report>)
    ensures ItemAnswered(w, c, item, reports) <==> Bound(EventOf(c), ContextFor(w, c, reports), RequirementOf(w)(item))
  {
    ContextReports(w, c, reports);
    hide Answers, Binds, ContextFor, EventOf, RequirementOf;
    forall k | 0 <= k < |reports|
      ensures Answers(w, c, item, reports[k]) <==>
        RequirementOf(w)(item).id == reports[k].id && Binds(EventOf(c), ContextFor(w, c, reports), RequirementOf(w)(item), reports[k])
    {
      AnswersIff(w, c, item, reports, reports[k]);
    }
  }

  lemma AskedIff(w: World, items: seq<Json>, qs: seq<Requirement>, r: Report)
    requires |qs| == |items| && forall i :: 0 <= i < |items| ==> qs[i] == RequirementOf(w)(items[i])
    ensures ItemAsks(items, r) <==> Asked(qs, r)
  {
    hide ItemHolds;
    forall i | 0 <= i < |items| ensures ItemHolds(items[i], "evidence_id", r.id) <==> qs[i].id == r.id {
      ItemHoldsIt(items[i], "evidence_id", r.id);
    }
  }

  lemma ContextReports(w: World, c: C.Case, reports: seq<Report>)
    ensures ContextFor(w, c, reports).reports == reports
  {}

  // ---------- From the raw bundle to the verdict ----------

  function ReportsOf(prepared: B.EvidenceSet): seq<Report> {
    Mapped((r: B.SourcedReport) => r.report, prepared.reports)
  }

  ghost predicate Prepared(reading: B.Reading, b: B.Bundle, phase: string) {
    B.BundleOk(reading.norm, b) && b.phase == phase && B.OrderedReadable(reading, b.members)
  }

  /** The reports of a bundle that can be prepared. */
  ghost function BundleReports(reading: B.Reading, b: B.Bundle): seq<Report>
    requires B.OrderedReadable(reading, b.members)
  {
    ReportsOf(B.SetOf(reading, b, "", ""))
  }

  lemma ReportsApart(reading: B.Reading, b: B.Bundle)
    requires B.OrderedReadable(reading, b.members) && C.DistinctBy(b.members, B.MemberKey())
    ensures DistinctReports(BundleReports(reading, b))
  {
    var ordered := B.Ordered(b.members);
    assert forall i, j :: 0 <= i < j < |b.members| ==> B.MemberKey()(b.members[i]) != B.MemberKey()(b.members[j]);
    NamesKept(b.members, ordered, (m: B.Member) => m.id);
    var reports := BundleReports(reading, b);
    hide B.Ordered, B.MemberKey;
    forall i, j | 0 <= i < j < |reports| ensures reports[i].id != reports[j].id {
      assert B.Readable(reading, ordered[i]) && B.Readable(reading, ordered[j]);
      assert ordered[i].id != ordered[j].id;
    }
  }

  /** `_evaluate_case_source_bundle` as far as validation goes: nothing but a bundle that cannot be prepared is
      refused, so the guard against foreign contexts never fires here. */
  method EvaluateBundle(w: World, reading: B.Reading, c: C.Case, bundle: Option<B.Bundle>, phase: string) returns (r: Option<Status>)
    requires C.Validated(w.norm, c)
    ensures r.Some? <==> bundle.None? || Prepared(reading, bundle.value, phase)
    ensures r == Some(PASS) <==> bundle.Some? && Prepared(reading, bundle.value, phase) && Serves(w, c, BundleReports(reading, bundle.value))
    ensures r == Some(PASS) ==> AllName(w, c, BundleReports(reading, bundle.value))
  {
    hide C.Validated, SubjectHash, ScopeHash, Serves, AllName, B.OrderedReadable, DistinctReports;
    if bundle.None? {
      r := EvaluateSourceRooted(w, c, None, phase);
      return;
    }
    var prepared := B.PrepareSet(reading, bundle.value, SubjectHash(w, c), ScopeHash(w, c), phase);
    if prepared.None? {
      return None;
    }
    ReportsApart(reading, bundle.value);
    var sealed := Sealed(phase, ContextFor(w, c, ReportsOf(prepared.value)));
    assert sealed.context.reports == BundleReports(reading, bundle.value);
    r := EvaluateSourceRooted(w, c, Some(sealed), phase);
  }

  // ---------- Which Cases a set of reports serves ----------

  lemma PlanMembers(w: World, a: C.Case, b: C.Case)
    requires C.RearrangedOption(a.event.required, b.event.required) && a.event.required.Some?
    ensures multiset(PlanOf(w, a).value) == multiset(PlanOf(w, b).value)
  {
    MappedSame(RequirementOf(w), a.event.required.value, b.event.required.value);
  }

  lemma MatchForgetsPlanOrder(e: Event, c: Context, a: seq<Requirement>, b: seq<Requirement>)
    requires multiset(a) == multiset(b) && OneToOne(e, c, a)
    ensures OneToOne(e, c, b)
  {
    hide Bound;
    forall i | 0 <= i < |b| ensures Bound(e, c, b[i]) {
      assert b[i] in multiset(a);
    }
    forall k | 0 <= k < |c.reports| ensures Asked(b, c.reports[k]) {
      assert Asked(a, c.reports[k]);
      var i :| 0 <= i < |a| && a[i].id == c.reports[k].id;
      assert a[i] in multiset(b);
    }
  }

  lemma EventAlike(w: World, a: C.Case, b: C.Case)
    requires C.Subject(w.norm, w.casefold, a) == C.Subject(w.norm, w.casefold, b)
    ensures EventOf(a) == EventOf(b) && C.RearrangedOption(a.event.required, b.event.required)
  {
    SubjectParts(w, a, b);
    EventNames(a.event, b.event);
    CaseNames(a, b);
    hide Named, C.Rearranged, C.Subject;
  }

  lemma ContextAlike(w: World, a: C.Case, b: C.Case, reports: seq<Report>)
    requires C.Validated(w.norm, a) && C.Subject(w.norm, w.casefold, a) == C.Subject(w.norm, w.casefold, b)
    ensures ContextFor(w, a, reports) == ContextFor(w, b, reports)
  {
    SubjectFixesScope(w, a, b);
    hide C.Validated, C.Subject, ScopeOf;
  }

  lemma ServesAlike(w: World, a: C.Case, b: C.Case, reports: seq<Report>)
    requires C.Validated(w.norm, a) && C.Subject(w.norm, w.casefold, a) == C.Subject(w.norm, w.casefold, b) && Serves(w, a, reports)
    ensures Serves(w, b, reports)
  {
    EventAlike(w, a, b);
    ContextAlike(w, a, b, reports);
    PlanMembers(w, a, b);
    var x, y := PlanOf(w, a).value, PlanOf(w, b).value;
    hide C.Validated, C.Subject, EventOf, ContextFor, PlanOf, C.Rearranged, OneToOne;
    MatchForgetsPlanOrder(EventOf(a), ContextFor(w, a, reports), x, y);
  }

  /** Reports that serve one Case serve another exactly when the two differ in listing order, approvals, recorded
      evidence, results and the active mutation only, unless their subject hashes collide: any other change of event,
      documents, plan or scope is noticed. */
  lemma ServesExactly(w: World, a: C.Case, b: C.Case, reports: seq<Report>)
    requires C.Validated(w.norm, a) && DistinctReports(reports) && reports != [] && Serves(w, a, reports)
    requires SubjectHash(w, a) == SubjectHash(w, b) ==> C.Subject(w.norm, w.casefold, a) == C.Subject(w.norm, w.casefold, b)
    ensures Serves(w, b, reports) <==> C.SameSubject(a, b)
  {
    C.SubjectIff(w.norm, w.casefold, a, b);
    hide C.Validated, C.Subject, C.SameSubject, ScopeOf, Serves, DistinctReports;
    if Serves(w, b, reports) {
      ServedNames(w, a, reports);
      ServedNames(w, b, reports);
      assert reports[0].subject == SubjectHash(w, a) == SubjectHash(w, b);
    }
    if C.Subject(w.norm, w.casefold, a) == C.Subject(w.norm, w.casefold, b) {
      ServesAlike(w, a, b, reports);
    }
  }

  /** A sealed context fits another Case under the same condition. */
  lemma FitsExactly(w: World, a: C.Case, b: C.Case, phase: string, s: Sealed)
    requires C.Validated(w.norm, a) && Fits(w, a, phase, s)
    requires SubjectHash(w, a) == SubjectHash(w, b) ==> C.Subject(w.norm, w.casefold, a) == C.Subject(w.norm, w.casefold, b)
    ensures Fits(w, b, phase, s) <==> C.SameSubject(a, b)
  {
    C.SubjectIff(w.norm, w.casefold, a, b);
    hide C.Validated, C.Subject, C.SameSubject, ScopeOf;
    if C.Subject(w.norm, w.casefold, a) == C.Subject(w.norm, w.casefold, b) {
      SubjectFixesScope(w, a, b);
    }
  }

  /** Listing the Case in another order, approving it or recording evidence in it keeps its reports valid. */
  lemma ServesThroughReordering(w: World, a: C.Case, b: C.Case, c: C.Case, reports: seq<Report>)
    requires C.Validated(w.norm, a) && C.SameCase(a, b) && C.SameUpstream(b, c) && Serves(w, a, reports)
    ensures Serves(w, c, reports)
  {
    hide C.Validated, C.Subject, Serves, C.SameCase, C.SameUpstream;
    C.SubjectForgetsOrder(w.norm, w.casefold, a, b);
    C.SubjectIgnoresDownstream(w.norm, w.casefold, b, c);
    ServesAlike(w, a, c, reports);
  }
}

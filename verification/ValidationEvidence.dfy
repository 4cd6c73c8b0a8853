/** Rule R006: validation reports compared with the validation plan. */
module ValidationEvidence {
  import opened Json
  import opened Ordering
  import opened RelationRules

  datatype Requirement = Requirement(id: string, kind: string, claim: string, issuerId: string, issuerRole: string, validFrom: int, validUntil: int)

  /** A report's claims; times are instants. */
  datatype Report = Report(id: string, result: string, eventId: string, eventRevision: string, scope: string, subject: string, kind: string,
                           claim: string, issuerId: string, issuerRole: string, ruleset: string, schema: string, performed: int, issued: int)

  // ---------- R006 ----------

  datatype Event = Event(id: string, revision: string, schema: string)

  /** The sealed context: the scope digest and subject hash it was prepared for, and its reports. */
  datatype Context = Context(scope: string, subject: string, reports: seq<Report>)

  const RULESET := "qci-rules-0.6.0"

  /** Every compared claim matches and the times nest. */
  predicate Binds(e: Event, c: Context, q: Requirement, r: Report) {
    && r.result == "PASS" && r.eventId == e.id && r.eventRevision == e.revision
    && r.scope == c.scope && r.subject == c.subject
    && r.kind == q.kind && r.claim == q.claim && r.issuerId == q.issuerId && r.issuerRole == q.issuerRole
    && r.ruleset == RULESET && r.schema == e.schema
    && q.validFrom <= r.performed <= r.issued <= q.validUntil
  }

  ghost predicate DistinctRequirements(qs: seq<Requirement>) {
    forall i, j :: 0 <= i < j < |qs| ==> qs[i].id != qs[j].id
  }

  ghost predicate DistinctReports(rs: seq<Report>) {
    forall i, j :: 0 <= i < j < |rs| ==> rs[i].id != rs[j].id
  }

  ghost predicate Answered(q: Requirement, rs: seq<Report>) {
    exists k :: 0 <= k < |rs| && rs[k].id == q.id
  }

  ghost predicate Bound(e: Event, c: Context, q: Requirement) {
    exists k :: 0 <= k < |c.reports| && c.reports[k].id == q.id && Binds(e, c, q, c.reports[k])
  }

  ghost predicate Asked(qs: seq<Requirement>, r: Report) {
    exists k :: 0 <= k < |qs| && qs[k].id == r.id
  }

  /** Requirements and reports match one to one, and every pair binds. */
  ghost predicate OneToOne(e: Event, c: Context, qs: seq<Requirement>) {
    && (forall i :: 0 <= i < |qs| ==> Bound(e, c, qs[i]))
    && (forall k :: 0 <= k < |c.reports| ==> Asked(qs, c.reports[k]))
  }

  method IndexReports(rs: seq<Report>) returns (index: map<string, Report>)
    requires DistinctReports(rs)
    ensures forall k :: 0 <= k < |rs| ==> rs[k].id in index && index[rs[k].id] == rs[k]
    ensures forall id :: id in index ==> exists k :: 0 <= k < |rs| && rs[k].id == id
  {
    index := map[];
    var k := 0;
    while k < |rs|
      invariant 0 <= k <= |rs|
      invariant forall i :: 0 <= i < k ==> rs[i].id in index && index[rs[i].id] == rs[i]
      invariant forall id :: id in index ==> exists i :: 0 <= i < k && rs[i].id == id
    {
      index := index[rs[k].id := rs[k]];
      k := k + 1;
    }
  }

  ghost predicate Indexed(c: Context, reports: map<string, Report>) {
    && (forall k :: 0 <= k < |c.reports| ==> c.reports[k].id in reports && reports[c.reports[k].id] == c.reports[k])
    && (forall id :: id in reports ==> exists k :: 0 <= k < |c.reports| && c.reports[k].id == id)
  }

  method AllAnswered(c: Context, qs: seq<Requirement>, reports: map<string, Report>) returns (ok: bool)
    requires Indexed(c, reports)
    ensures ok <==> forall i :: 0 <= i < |qs| ==> Answered(qs[i], c.reports)
    ensures ok ==> forall i :: 0 <= i < |qs| ==> qs[i].id in reports
  {
    var i := 0;
    while i < |qs|
      invariant 0 <= i <= |qs| && forall j :: 0 <= j < i ==> qs[j].id in reports && Answered(qs[j], c.reports)
    {
      if qs[i].id !in reports {
        assert !Answered(qs[i], c.reports);
        return false;
      }
      i := i + 1;
    }
    return true;
  }

  method AllAsked(c: Context, qs: seq<Requirement>) returns (ok: bool)
    ensures ok <==> forall k :: 0 <= k < |c.reports| ==> Asked(qs, c.reports[k])
  {
    var ids := set j: nat | j < |qs| :: qs[j].id;
    var k := 0;
    while k < |c.reports|
      invariant 0 <= k <= |c.reports| && forall i :: 0 <= i < k ==> Asked(qs, c.reports[i])
    {
      if c.reports[k].id !in ids {
        assert !Asked(qs, c.reports[k]);
        return false;
      }
      k := k + 1;
    }
    return true;
  }

  method AllBound(e: Event, c: Context, qs: seq<Requirement>, reports: map<string, Report>) returns (ok: bool)
    requires Indexed(c, reports) && forall i :: 0 <= i < |qs| ==> qs[i].id in reports
    ensures ok <==> forall i :: 0 <= i < |qs| ==> Bound(e, c, qs[i])
  {
    hide Binds, Bound;
    var i := 0;
    while i < |qs|
      invariant 0 <= i <= |qs| && forall j :: 0 <= j < i ==> Bound(e, c, qs[j])
    {
      BoundByIndex(e, c, qs[i], reports);
      if !Binds(e, c, qs[i], reports[qs[i].id]) {
        return false;
      }
      i := i + 1;
    }
    return true;
  }

  /** `rule_validation_evidence`: without a sealed context, a plan or a required report nothing is verifiable;
      otherwise it passes exactly when requirements and reports match one to one and every pair binds. */
  method RuleValidationEvidence(e: Event, plan: Option<seq<Requirement>>, context: Option<Context>) returns (status: Status)
    requires plan.Some? ==> DistinctRequirements(plan.value)
    requires context.Some? ==> DistinctReports(context.value.reports)
    ensures status.PASS? <==> context.Some? && plan.Some? && OneToOne(e, context.value, plan.value)
    ensures status.UNVERIFIABLE? <==>
      context.None? || plan.None? || exists i :: 0 <= i < |plan.value| && !Answered(plan.value[i], context.value.reports)
  {
    hide Binds, Bound, Answered, Asked;
    if context.None? || plan.None? {
      return UNVERIFIABLE;
    }
    var c, qs := context.value, plan.value;
    var reports := IndexReports(c.reports);
    var answered := AllAnswered(c, qs, reports);
    if !answered {
      SomeUnbound(e, c, qs);
      return UNVERIFIABLE;
    }
    var asked := AllAsked(c, qs);
    var bound := AllBound(e, c, qs, reports);
    return if asked && bound then PASS else CONTRADICTED;
  }

  lemma SomeUnbound(e: Event, c: Context, qs: seq<Requirement>)
    ensures forall i :: 0 <= i < |qs| && Bound(e, c, qs[i]) ==> Answered(qs[i], c.reports)
  {
    hide Binds;
  }

  lemma BoundByIndex(e: Event, c: Context, q: Requirement, reports: map<string, Report>)
    requires Indexed(c, reports) && q.id in reports
    ensures Bound(e, c, q) <==> Binds(e, c, q, reports[q.id])
  {
    hide Binds;
    var k :| 0 <= k < |c.reports| && c.reports[k].id == q.id;
    assert reports[q.id] == c.reports[k];
  }

  /** One-to-one means as many reports as requirements, each requirement with its own. */
  lemma MatchingIsBijective(e: Event, c: Context, qs: seq<Requirement>)
    requires DistinctRequirements(qs) && DistinctReports(c.reports) && OneToOne(e, c, qs)
    ensures |qs| == |c.reports|
    ensures forall i, j, k :: 0 <= i < |qs| && 0 <= j < |qs| && 0 <= k < |c.reports| && qs[i].id == c.reports[k].id && qs[j].id == c.reports[k].id ==> i == j
  {
    var asked := seq(|qs|, i requires 0 <= i < |qs| => qs[i].id);
    var answered := seq(|c.reports|, k requires 0 <= k < |c.reports| => c.reports[k].id);
    forall i | 0 <= i < |asked| ensures asked[i] in answered {
      assert Bound(e, c, qs[i]);
      var k :| 0 <= k < |c.reports| && c.reports[k].id == qs[i].id && Binds(e, c, qs[i], c.reports[k]);
      assert answered[k] == asked[i];
    }
    forall k | 0 <= k < |answered| ensures answered[k] in asked {
      assert Asked(qs, c.reports[k]);
      var i :| 0 <= i < |qs| && qs[i].id == c.reports[k].id;
      assert asked[i] == answered[k];
    }
    NoLonger(asked, answered);
    NoLonger(answered, asked);
  }
}

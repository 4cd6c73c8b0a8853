/** Rules R001, R002 and R003 over indexed rows, and the plain meaning of their statuses. */
module RelationRules {
  import opened Json
  import opened Relations

  datatype Status = PASS | CONTRADICTED | UNVERIFIABLE

  /** The documents approved for each role and the impact plan. `migrated` says the Case carries the
      relationship migration marker. */
  datatype Subject = Subject(
    processFlow: Option<Document>, pfmea: Option<Document>, controlPlan: Option<Document>, sop: Option<Document>,
    inspection: Option<Document>, migrated: bool,
    steps: seq<string>, characteristics: seq<string>, links: seq<Pair>)

  datatype World = World(norm: Norm, strip: string -> string)

  /** Validated Cases: characteristic rows name distinct pairs. */
  ghost predicate Validated(w: World, s: Subject) {
    forall d: Option<Document> :: d in [s.controlPlan, s.sop, s.inspection] && d.Some? ==> RowsDistinct(w.norm, d.value.rows)
  }

  // ---------- Scope ----------

  /** Some link exists and every affected characteristic is linked. */
  ghost predicate ScopeComplete(w: World, s: Subject) {
    && s.links != []
    && forall i :: 0 <= i < |s.characteristics| ==> Linked(w, s, s.characteristics[i])
  }

  ghost predicate Linked(w: World, s: Subject, characteristic: string) {
    exists j :: 0 <= j < |s.links| && w.norm(s.links[j].1) == w.norm(characteristic)
  }

  /** `_scope_relationships_complete`. */
  method CheckScope(w: World, s: Subject) returns (complete: bool)
    ensures complete <==> ScopeComplete(w, s)
  {
    if s.links == [] {
      return false;
    }
    var linked := set j: nat | j < |s.links| :: w.norm(s.links[j].1);
    var i := 0;
    while i < |s.characteristics|
      invariant 0 <= i <= |s.characteristics|
      invariant forall k :: 0 <= k < i ==> Linked(w, s, s.characteristics[k])
    {
      if w.norm(s.characteristics[i]) !in linked {
        return false;
      }
      i := i + 1;
    }
    return true;
  }

  // ---------- Legacy rows ----------

  predicate Blank(t: Option<string>) {
    t.None? || t.value == ""
  }

  /** A row the migration left without its relationship. */
  predicate Unbound(row: Row, controls: bool) {
    Blank(row.step) || (controls && Blank(row.controlId))
  }

  /** The row names no step, or no control where one is due. */
  ghost predicate NamesNothing(row: Row, controls: bool) {
    row.step == None || row.step == Some("") || (controls && (row.controlId == None || row.controlId == Some("")))
  }

  ghost predicate HasUnbound(rows: seq<Row>, controls: bool) {
    exists k :: 0 <= k < |rows| && NamesNothing(rows[k], controls)
  }

  lemma UnboundIff(row: Row, controls: bool)
    ensures Unbound(row, controls) <==> NamesNothing(row, controls)
  {}

  method AnyUnbound(rows: seq<Row>, controls: bool) returns (r: bool)
    ensures r <==> HasUnbound(rows, controls)
  {
    hide Unbound, NamesNothing;
    var k := 0;
    while k < |rows|
      invariant 0 <= k <= |rows| && forall i :: 0 <= i < k ==> !NamesNothing(rows[i], controls)
    {
      UnboundIff(rows[k], controls);
      if Unbound(rows[k], controls) {
        return true;
      }
      k := k + 1;
    }
    return false;
  }

  // ---------- Specifications ----------

  datatype Limits = Limits(target: real, minimum: real, maximum: real, unit: string)

  predicate Numeric(v: Option<Json>) {
    v.Some? && (v.value.Int? || v.value.Real?)
  }

  /** `_spec_tuple`: a complete specification with ordered limits, compared by value. */
  function LimitsOf(w: World, row: Row): Option<Limits> {
    if row.specification.None? then None
    else
      var spec := row.specification.value;
      var target, minimum, maximum := Get(spec, "target"), Get(spec, "minimum"), Get(spec, "maximum");
      if !Numeric(target) || !Numeric(minimum) || !Numeric(maximum) then None
      else
        match Get(spec, "unit")
        case Some(Str(unit)) =>
          var t, low, high := NumberOf(target.value), NumberOf(minimum.value), NumberOf(maximum.value);
          if w.strip(unit) != "" && low <= t <= high then Some(Limits(t, low, high, unit)) else None
        case _ => None
  }

  ghost predicate Gives(v: Json, x: real) {
    (v.Int? && v.i as real == x) || v == Real(x)
  }

  /** The row's specification gives exactly these limits: three numbers in order and a unit that is not blank. */
  ghost predicate Spells(w: World, row: Row, limits: Limits) {
    && row.specification.Some? && row.specification.value.Obj?
    && var m := row.specification.value.members;
       && "target" in m && "minimum" in m && "maximum" in m && "unit" in m
       && Gives(m["target"], limits.target) && Gives(m["minimum"], limits.minimum) && Gives(m["maximum"], limits.maximum)
       && m["unit"] == Str(limits.unit) && w.strip(limits.unit) != ""
       && limits.minimum <= limits.target <= limits.maximum
  }

  /** The comparison value is what the specification spells, and there is none when it spells no limits. */
  lemma LimitsIff(w: World, row: Row, limits: Limits)
    ensures LimitsOf(w, row) == Some(limits) <==> Spells(w, row, limits)
  {}

  /** Some row of the pair spells these limits. */
  ghost predicate Specifies(w: World, d: Document, p: Pair, limits: Limits) {
    exists k :: 0 <= k < |d.rows| && Names(w.norm, d.rows[k], p) && Spells(w, d.rows[k], limits)
  }

  ghost predicate Specified(w: World, d: Document, p: Pair) {
    exists limits :: Specifies(w, d, p, limits)
  }

  /** Two documents specify the pair differently. */
  ghost predicate Disagree(w: World, a: Document, b: Document, p: Pair) {
    exists x, y :: Specifies(w, a, p, x) && Specifies(w, b, p, y) && x != y
  }

  /** The pair has no row but some row shares one half. */
  ghost predicate Misbound(w: World, d: Document, p: Pair) {
    !HasRow(w.norm, d.rows, p) && HasHalf(w.norm, d.rows, p)
  }

  // ---------- R002 ----------

  ghost predicate SpecDocuments(s: Subject) {
    s.controlPlan.Some? && s.sop.Some? && s.inspection.Some?
  }

  function Compared(s: Subject): seq<Document>
    requires s.controlPlan.Some? && s.sop.Some? && s.inspection.Some?
  {
    [s.controlPlan.value, s.sop.value, s.inspection.value]
  }

  ghost predicate SpecLegacy(s: Subject)
    requires SpecDocuments(s)
  {
    s.migrated && (HasUnbound(s.controlPlan.value.rows, true) || HasUnbound(s.sop.value.rows, false) || HasUnbound(s.inspection.value.rows, false))
  }

  ghost predicate PairConflicts(w: World, s: Subject, p: Pair)
    requires SpecDocuments(s)
  {
    exists i, j :: 0 <= i < j < 3 && Disagree(w, Compared(s)[i], Compared(s)[j], p)
  }

  ghost predicate PairMisbound(w: World, s: Subject, p: Pair)
    requires SpecDocuments(s)
  {
    exists i :: 0 <= i < 3 && Misbound(w, Compared(s)[i], p)
  }

  ghost predicate PairMissing(w: World, s: Subject, p: Pair)
    requires SpecDocuments(s)
  {
    exists i :: 0 <= i < 3 && !Specified(w, Compared(s)[i], p)
  }

  /** What R002 means, read off the rows and links without any index. */
  ghost function SpecificationStatus(w: World, s: Subject): Status {
    if !SpecDocuments(s) || s.characteristics == [] || !ScopeComplete(w, s) then UNVERIFIABLE
    else if SpecLegacy(s) then UNVERIFIABLE
    else if exists p :: p in s.links && PairConflicts(w, s, p) then CONTRADICTED
    else if exists p :: p in s.links && PairMisbound(w, s, p) then CONTRADICTED
    else if exists p :: p in s.links && PairMissing(w, s, p) then UNVERIFIABLE
    else PASS
  }

  /** One document prepared for lookups. */
  datatype Indexed = Indexed(document: Document, rows: map<Pair, nat>, byStep: map<string, seq<nat>>, byCharacteristic: map<string, seq<nat>>)

  ghost predicate Prepared(w: World, x: Indexed) {
    && IndexesRows(w.norm, x.document.rows, x.rows, |x.document.rows|)
    && HalfIndex(w.norm, x.document.rows, x.byStep, x.byCharacteristic, |x.document.rows|)
  }

  method Prepare(w: World, d: Document) returns (x: Indexed)
    ensures Prepared(w, x) && x.document == d
  {
    var rows := IndexRows(w.norm, d.rows);
    var byStep, byCharacteristic := IndexHalves(w.norm, d.rows);
    x := Indexed(d, rows, byStep, byCharacteristic);
  }

  /** The indexed lookup of one pair in one document agrees with the scan. */
  method LookUp(w: World, x: Indexed, p: Pair) returns (limits: Option<Limits>, misbound: bool)
    requires Prepared(w, x) && RowsDistinct(w.norm, x.document.rows)
    ensures limits.Some? <==> Specified(w, x.document, p)
    ensures forall y :: Specifies(w, x.document, p, y) <==> limits == Some(y)
    ensures misbound <==> Misbound(w, x.document, p)
  {
    hide LimitsOf, Names, HalfIndex, Spells;
    var rows := x.document.rows;
    LookupFinds(w.norm, rows, x.rows, p);
    misbound := false;
    limits := None;
    if KeyOf(w.norm, p) in x.rows {
      var k := x.rows[KeyOf(w.norm, p)];
      limits := LimitsOf(w, rows[k]);
      LookupUnique(w.norm, rows, k, p);
      forall y ensures Spells(w, rows[k], y) <==> limits == Some(y) {
        LimitsIff(w, rows[k], y);
      }
      if limits.Some? {
        assert Specifies(w, x.document, p, limits.value);
      }
    } else {
      var candidates := Candidates(w.norm, rows, x.byStep, x.byCharacteristic, p);
      misbound := candidates != [];
    }
  }

  /** One pair through the three documents. */
  method ComparePair(w: World, indexed: seq<Indexed>, s: Subject, p: Pair) returns (conflict: bool, misbound: bool, missing: bool)
    requires SpecDocuments(s) && Validated(w, s) && |indexed| == 3
    requires forall i :: 0 <= i < 3 ==> Prepared(w, indexed[i]) && indexed[i].document == Compared(s)[i]
    ensures conflict <==> PairConflicts(w, s, p)
    ensures misbound <==> PairMisbound(w, s, p)
    ensures missing <==> PairMissing(w, s, p)
  {
    hide Specifies, Specified, Misbound, Prepared, RowsDistinct;
    var values: seq<Option<Limits>> := [];
    conflict, misbound, missing := false, false, false;
    var i := 0;
    while i < 3
      invariant 0 <= i <= 3 && |values| == i
      invariant forall k :: 0 <= k < i ==> forall y :: Specifies(w, Compared(s)[k], p, y) <==> values[k] == Some(y)
      invariant misbound <==> exists k :: 0 <= k < i && Misbound(w, Compared(s)[k], p)
      invariant missing <==> exists k :: 0 <= k < i && !Specified(w, Compared(s)[k], p)
    {
      assert Some(Compared(s)[i]) in [s.controlPlan, s.sop, s.inspection];
      var limits, shares := LookUp(w, indexed[i], p);
      if limits.None? {
        missing := true;
      }
      misbound := misbound || shares;
      values := values + [limits];
      i := i + 1;
    }
    conflict := Differ(values[0], values[1]) || Differ(values[0], values[2]) || Differ(values[1], values[2]);
    forall a, b | 0 <= a < b < 3 ensures Disagree(w, Compared(s)[a], Compared(s)[b], p) <==> Differ(values[a], values[b]) {
      DisagreeIff(w, Compared(s)[a], Compared(s)[b], p, values[a], values[b]);
    }
  }

  /** Both present and unequal. */
  predicate Differ(a: Option<Limits>, b: Option<Limits>) {
    a.Some? && b.Some? && a != b
  }

  lemma DisagreeIff(w: World, a: Document, b: Document, p: Pair, x: Option<Limits>, y: Option<Limits>)
    requires forall z :: Specifies(w, a, p, z) <==> x == Some(z)
    requires forall z :: Specifies(w, b, p, z) <==> y == Some(z)
    ensures Disagree(w, a, b, p) <==> Differ(x, y)
  {
    hide Specifies;
    if Differ(x, y) {
      assert Specifies(w, a, p, x.value) && Specifies(w, b, p, y.value);
    }
  }

  /** `rule_spec_consistency`. */
  method RuleSpecConsistency(w: World, s: Subject) returns (status: Status)
    requires Validated(w, s)
    ensures status == SpecificationStatus(w, s)
  {
    hide PairConflicts, PairMisbound, PairMissing, ScopeComplete, Prepared, HasUnbound, Validated;
    if s.controlPlan.None? || s.sop.None? || s.inspection.None? || s.characteristics == [] {
      return UNVERIFIABLE;
    }
    var complete := CheckScope(w, s);
    if !complete {
      return UNVERIFIABLE;
    }
    var a := AnyUnbound(s.controlPlan.value.rows, true);
    var b := AnyUnbound(s.sop.value.rows, false);
    var c := AnyUnbound(s.inspection.value.rows, false);
    if s.migrated && (a || b || c) {
      return UNVERIFIABLE;
    }
    var control := Prepare(w, s.controlPlan.value);
    var sop := Prepare(w, s.sop.value);
    var inspection := Prepare(w, s.inspection.value);
    var indexed := [control, sop, inspection];
    var conflicts, misbounds, missings := false, false, false;
    var j := 0;
    while j < |s.links|
      invariant 0 <= j <= |s.links|
      invariant conflicts <==> exists p :: p in s.links[..j] && PairConflicts(w, s, p)
      invariant misbounds <==> exists p :: p in s.links[..j] && PairMisbound(w, s, p)
      invariant missings <==> exists p :: p in s.links[..j] && PairMissing(w, s, p)
    {
      var conflict, misbound, missing := ComparePair(w, indexed, s, s.links[j]);
      assert s.links[..j + 1] == s.links[..j] + [s.links[j]];
      conflicts, misbounds, missings := conflicts || conflict, misbounds || misbound, missings || missing;
      j := j + 1;
    }
    assert s.links[..j] == s.links;
    return if conflicts then CONTRADICTED else if misbounds then CONTRADICTED else if missings then UNVERIFIABLE else PASS;
  }

  /** One limit for the pair in all three documents. */
  ghost predicate Agreed(w: World, s: Subject, p: Pair)
    requires SpecDocuments(s)
  {
    exists limits :: AllSpecify(w, s, p, limits)
  }

  ghost predicate AllSpecify(w: World, s: Subject, p: Pair, limits: Limits)
    requires SpecDocuments(s)
  {
    Specifies(w, Compared(s)[0], p, limits) && Specifies(w, Compared(s)[1], p, limits) && Specifies(w, Compared(s)[2], p, limits)
  }

  lemma SpecifiesOnce(w: World, d: Document, p: Pair, x: Limits, y: Limits)
    requires RowsDistinct(w.norm, d.rows) && Specifies(w, d, p, x) && Specifies(w, d, p, y)
    ensures x == y
  {
    hide LimitsOf, Spells;
    var i: nat :| i < |d.rows| && Names(w.norm, d.rows[i], p) && Spells(w, d.rows[i], x);
    var j: nat :| j < |d.rows| && Names(w.norm, d.rows[j], p) && Spells(w, d.rows[j], y);
    SameKey(w.norm, d.rows, i, j, p);
    LimitsIff(w, d.rows[i], x);
    LimitsIff(w, d.rows[i], y);
  }

  lemma ComparedDistinct(w: World, s: Subject)
    requires SpecDocuments(s) && Validated(w, s)
    ensures forall i :: 0 <= i < 3 ==> RowsDistinct(w.norm, Compared(s)[i].rows)
  {
    forall i | 0 <= i < 3 ensures RowsDistinct(w.norm, Compared(s)[i].rows) {
      assert Some(Compared(s)[i]) in [s.controlPlan, s.sop, s.inspection];
    }
  }

  lemma AgreedIff(w: World, s: Subject, p: Pair)
    requires SpecDocuments(s) && Validated(w, s)
    ensures Agreed(w, s, p) <==> !PairConflicts(w, s, p) && !PairMissing(w, s, p)
    ensures Agreed(w, s, p) ==> !PairMisbound(w, s, p)
  {
    ComparedDistinct(w, s);
    hide RowsDistinct, Spells, Names, Validated, Specifies, Specified, Disagree, Misbound;
    var ds := Compared(s);
    if Agreed(w, s, p) {
      var limits :| AllSpecify(w, s, p, limits);
      forall i | 0 <= i < 3 ensures Specified(w, ds[i], p) && !Misbound(w, ds[i], p) && Specifies(w, ds[i], p, limits) {
        SpecifiedBound(w, ds[i], p, limits);
      }
      forall i, j | 0 <= i < j < 3 ensures !Disagree(w, ds[i], ds[j], p) {
        NoDisagreement(w, ds[i], ds[j], p, limits);
      }
    }
    if !PairConflicts(w, s, p) && !PairMissing(w, s, p) {
      assert Specified(w, ds[0], p) && Specified(w, ds[1], p) && Specified(w, ds[2], p);
      assert !Disagree(w, ds[0], ds[1], p) && !Disagree(w, ds[0], ds[2], p);
      var x := FirstSpecifies(w, ds, p);
      assert AllSpecify(w, s, p, x);
    }
  }

  lemma SpecifiedBound(w: World, d: Document, p: Pair, limits: Limits)
    requires Specifies(w, d, p, limits)
    ensures Specified(w, d, p) && !Misbound(w, d, p)
  {
    hide Spells, Names, HasHalf;
  }

  lemma FirstSpecifies(w: World, ds: seq<Document>, p: Pair) returns (x: Limits)
    requires |ds| == 3 && Specified(w, ds[0], p) && Specified(w, ds[1], p) && Specified(w, ds[2], p)
    requires !Disagree(w, ds[0], ds[1], p) && !Disagree(w, ds[0], ds[2], p)
    ensures Specifies(w, ds[0], p, x) && Specifies(w, ds[1], p, x) && Specifies(w, ds[2], p, x)
  {
    hide Specifies;
    x :| Specifies(w, ds[0], p, x);
    var y :| Specifies(w, ds[1], p, y);
    var z :| Specifies(w, ds[2], p, z);
  }

  lemma NoDisagreement(w: World, a: Document, b: Document, p: Pair, limits: Limits)
    requires RowsDistinct(w.norm, a.rows) && RowsDistinct(w.norm, b.rows) && Specifies(w, a, p, limits) && Specifies(w, b, p, limits)
    ensures !Disagree(w, a, b, p)
  {
    hide Specifies, RowsDistinct;
    forall x, y | Specifies(w, a, p, x) && Specifies(w, b, p, y) ensures x == y {
      SpecifiesOnce(w, a, p, x, limits);
      SpecifiesOnce(w, b, p, y, limits);
    }
  }

  /** R002 passes exactly when the scope is complete, no row is legacy-unbound, and every affected pair has one
      complete, ordered, equal specification in all three documents. */
  lemma SpecificationPasses(w: World, s: Subject)
    requires Validated(w, s)
    ensures SpecificationStatus(w, s).PASS? <==>
      && SpecDocuments(s) && s.characteristics != [] && ScopeComplete(w, s) && !SpecLegacy(s)
      && forall p :: p in s.links ==> Agreed(w, s, p)
  {
    hide PairConflicts, PairMisbound, PairMissing, ScopeComplete, HasUnbound, Validated, Agreed;
    if SpecDocuments(s) {
      forall p ensures (Agreed(w, s, p) <==> !PairConflicts(w, s, p) && !PairMissing(w, s, p)) && (Agreed(w, s, p) ==> !PairMisbound(w, s, p)) {
        AgreedIff(w, s, p);
      }
    }
  }

  // ---------- R001 ----------

  ghost predicate AllHave(w: World, s: Subject, step: string)
    requires s.processFlow.Some? && s.pfmea.Some? && s.controlPlan.Some?
  {
    HasStep(w, s.processFlow.value, step) && HasStep(w, s.pfmea.value, step) && HasStep(w, s.controlPlan.value, step)
  }

  ghost predicate HasStep(w: World, d: Document, step: string) {
    exists k :: 0 <= k < |d.steps| && w.norm(d.steps[k]) == w.norm(step)
  }

  ghost predicate RiskLegacy(s: Subject)
    requires s.pfmea.Some? && s.controlPlan.Some?
  {
    s.migrated && (HasUnbound(s.pfmea.value.rows, false) || HasUnbound(s.controlPlan.value.rows, true))
  }

  ghost predicate Covered(w: World, s: Subject, p: Pair)
    requires s.pfmea.Some? && s.controlPlan.Some?
  {
    HasRow(w.norm, s.pfmea.value.rows, p) && HasRow(w.norm, s.controlPlan.value.rows, p)
  }

  /** What R001 means. */
  ghost function CoverageStatus(w: World, s: Subject): Status {
    if s.processFlow.None? || s.pfmea.None? || s.controlPlan.None? || s.steps == [] then UNVERIFIABLE
    else if exists step :: step in s.steps && !AllHave(w, s, step) then CONTRADICTED
    else if !ScopeComplete(w, s) || RiskLegacy(s) then UNVERIFIABLE
    else if exists p :: p in s.links && !Covered(w, s, p) then CONTRADICTED
    else PASS
  }

  /** `rule_process_coverage`. */
  method RuleProcessCoverage(w: World, s: Subject) returns (status: Status)
    ensures status == CoverageStatus(w, s)
  {
    hide ScopeComplete, HasUnbound, AllHave, Covered, GroupsRows, IndexesRows;
    if s.processFlow.None? || s.pfmea.None? || s.controlPlan.None? || s.steps == [] {
      return UNVERIFIABLE;
    }
    var missing := MissingStep(w, s);
    if missing {
      return CONTRADICTED;
    }
    var complete := CheckScope(w, s);
    if !complete {
      return UNVERIFIABLE;
    }
    var a := AnyUnbound(s.pfmea.value.rows, false);
    var b := AnyUnbound(s.controlPlan.value.rows, true);
    if s.migrated && (a || b) {
      return UNVERIFIABLE;
    }
    var risks := GroupRows(w.norm, s.pfmea.value.rows);
    var controls := IndexRows(w.norm, s.controlPlan.value.rows);
    var gaps := false;
    var j := 0;
    while j < |s.links|
      invariant 0 <= j <= |s.links|
      invariant gaps <==> exists p :: p in s.links[..j] && !Covered(w, s, p)
    {
      var p := s.links[j];
      CoveredByIndex(w, s, risks, controls, p);
      assert s.links[..j + 1] == s.links[..j] + [p];
      gaps := gaps || KeyOf(w.norm, p) !in risks || KeyOf(w.norm, p) !in controls;
      j := j + 1;
    }
    assert s.links[..j] == s.links;
    return if gaps then CONTRADICTED else PASS;
  }

  lemma CoveredByIndex(w: World, s: Subject, risks: map<Pair, seq<nat>>, controls: map<Pair, nat>, p: Pair)
    requires s.pfmea.Some? && s.controlPlan.Some?
    requires GroupsRows(w.norm, s.pfmea.value.rows, risks, |s.pfmea.value.rows|)
    requires IndexesRows(w.norm, s.controlPlan.value.rows, controls, |s.controlPlan.value.rows|)
    ensures Covered(w, s, p) <==> KeyOf(w.norm, p) in risks && KeyOf(w.norm, p) in controls
  {
    hide GroupsRows, IndexesRows, HasRow;
    GroupFinds(w.norm, s.pfmea.value.rows, risks, p);
    LookupFinds(w.norm, s.controlPlan.value.rows, controls, p);
  }

  method MissingStep(w: World, s: Subject) returns (missing: bool)
    requires s.processFlow.Some? && s.pfmea.Some? && s.controlPlan.Some?
    ensures missing <==> exists step :: step in s.steps && !AllHave(w, s, step)
  {
    var a := set k: nat | k < |s.processFlow.value.steps| :: w.norm(s.processFlow.value.steps[k]);
    var b := set k: nat | k < |s.pfmea.value.steps| :: w.norm(s.pfmea.value.steps[k]);
    var c := set k: nat | k < |s.controlPlan.value.steps| :: w.norm(s.controlPlan.value.steps[k]);
    var i := 0;
    while i < |s.steps|
      invariant 0 <= i <= |s.steps| && forall j :: 0 <= j < i ==> AllHave(w, s, s.steps[j])
    {
      var key := w.norm(s.steps[i]);
      if key !in a || key !in b || key !in c {
        assert !AllHave(w, s, s.steps[i]);
        return true;
      }
      i := i + 1;
    }
    return false;
  }

  // ---------- R003 ----------

  predicate Filled(w: World, t: Option<string>) {
    t.Some? && w.strip(t.value) != ""
  }

  predicate Controlled(w: World, row: Row) {
    Filled(w, row.controlMethod) && Filled(w, row.frequency) && Filled(w, row.reaction)
  }

  /** Method, frequency and reaction all say something. */
  ghost predicate SaysHow(w: World, row: Row) {
    forall t :: t in [row.controlMethod, row.frequency, row.reaction] ==> t.Some? && w.strip(t.value) != ""
  }

  lemma ControlledIff(w: World, row: Row)
    ensures Controlled(w, row) <==> SaysHow(w, row)
  {
    var texts := [row.controlMethod, row.frequency, row.reaction];
    assert texts[0] == row.controlMethod && texts[1] == row.frequency && texts[2] == row.reaction;
  }

  ghost predicate SpecialRisk(w: World, s: Subject, p: Pair)
    requires s.pfmea.Some?
  {
    exists k :: 0 <= k < |s.pfmea.value.rows| && Names(w.norm, s.pfmea.value.rows[k], p) && s.pfmea.value.rows[k].special
  }

  ghost predicate ControlComplete(w: World, s: Subject, p: Pair)
    requires s.controlPlan.Some?
  {
    exists k :: 0 <= k < |s.controlPlan.value.rows| && Names(w.norm, s.controlPlan.value.rows[k], p) && SaysHow(w, s.controlPlan.value.rows[k])
  }

  /** What R003 means. */
  ghost function SpecialStatus(w: World, s: Subject): Status {
    if s.pfmea.None? || s.controlPlan.None? || !ScopeComplete(w, s) || RiskLegacy(s) then UNVERIFIABLE
    else if exists p :: p in s.links && !HasRow(w.norm, s.pfmea.value.rows, p) then
      if exists p :: p in s.links && Misbound(w, s.pfmea.value, p) then CONTRADICTED else UNVERIFIABLE
    else if exists p :: p in s.links && SpecialRisk(w, s, p) && !ControlComplete(w, s, p) then CONTRADICTED
    else PASS
  }

  /** `rule_special_characteristic_control`. */
  method RuleSpecialCharacteristicControl(w: World, s: Subject) returns (status: Status)
    requires Validated(w, s)
    ensures status == SpecialStatus(w, s)
  {
    hide ScopeComplete, HasUnbound, HasRow, Misbound, SpecialRisk, ControlComplete, Prepared, Validated;
    if s.pfmea.None? || s.controlPlan.None? {
      return UNVERIFIABLE;
    }
    var complete := CheckScope(w, s);
    if !complete {
      return UNVERIFIABLE;
    }
    var a := AnyUnbound(s.pfmea.value.rows, false);
    var b := AnyUnbound(s.controlPlan.value.rows, true);
    if s.migrated && (a || b) {
      return UNVERIFIABLE;
    }
    var absent, misbound := MissingRisks(w, s);
    if absent {
      return if misbound then CONTRADICTED else UNVERIFIABLE;
    }
    var gaps := ControlGaps(w, s);
    return if gaps then CONTRADICTED else PASS;
  }

  lemma MisboundIff(w: World, d: Document, p: Pair)
    ensures Misbound(w, d, p) <==> !HasRow(w.norm, d.rows, p) && HasHalf(w.norm, d.rows, p)
  {}

  method MissingRisks(w: World, s: Subject) returns (absent: bool, misbound: bool)
    requires s.pfmea.Some?
    ensures absent <==> exists p :: p in s.links && !HasRow(w.norm, s.pfmea.value.rows, p)
    ensures misbound <==> exists p :: p in s.links && Misbound(w, s.pfmea.value, p)
  {
    hide HasRow, HasHalf, GroupsRows, HalfIndex, Misbound;
    var rows := s.pfmea.value.rows;
    var risks := GroupRows(w.norm, rows);
    var byStep, byCharacteristic := IndexHalves(w.norm, rows);
    absent, misbound := false, false;
    var j := 0;
    while j < |s.links|
      invariant 0 <= j <= |s.links|
      invariant absent <==> exists p :: p in s.links[..j] && !HasRow(w.norm, rows, p)
      invariant misbound <==> exists p :: p in s.links[..j] && Misbound(w, s.pfmea.value, p)
    {
      var p := s.links[j];
      GroupFinds(w.norm, rows, risks, p);
      MisboundIff(w, s.pfmea.value, p);
      assert s.links[..j + 1] == s.links[..j] + [p];
      if KeyOf(w.norm, p) !in risks {
        var candidates := Candidates(w.norm, rows, byStep, byCharacteristic, p);
        absent, misbound := true, misbound || candidates != [];
      }
      j := j + 1;
    }
    assert s.links[..j] == s.links;
  }

  method ControlGaps(w: World, s: Subject) returns (gaps: bool)
    requires s.pfmea.Some? && s.controlPlan.Some? && Validated(w, s)
    ensures gaps <==> exists p :: p in s.links && SpecialRisk(w, s, p) && !ControlComplete(w, s, p)
  {
    hide GroupsRows, SaysHow, Names;
    var risks := GroupRows(w.norm, s.pfmea.value.rows);
    var controls := IndexRows(w.norm, s.controlPlan.value.rows);
    assert s.controlPlan in [s.controlPlan, s.sop, s.inspection];
    gaps := false;
    var j := 0;
    while j < |s.links|
      invariant 0 <= j <= |s.links|
      invariant gaps <==> exists p :: p in s.links[..j] && SpecialRisk(w, s, p) && !ControlComplete(w, s, p)
    {
      var p := s.links[j];
      assert s.links[..j + 1] == s.links[..j] + [p];
      var special := AnySpecial(w, s, risks, p);
      if special {
        var complete := HasControl(w, s, controls, p);
        gaps := gaps || !complete;
      }
      j := j + 1;
    }
    assert s.links[..j] == s.links;
  }

  method AnySpecial(w: World, s: Subject, risks: map<Pair, seq<nat>>, p: Pair) returns (special: bool)
    requires s.pfmea.Some? && GroupsRows(w.norm, s.pfmea.value.rows, risks, |s.pfmea.value.rows|)
    ensures special <==> SpecialRisk(w, s, p)
  {
    var rows := s.pfmea.value.rows;
    GroupFinds(w.norm, rows, risks, p);
    hide GroupsRows, Names;
    var group := Group(risks, KeyOf(w.norm, p));
    assert forall i :: 0 <= i < |group| ==> group[i] in group;
    var i := 0;
    while i < |group|
      invariant 0 <= i <= |group| && forall j :: 0 <= j < i ==> !rows[group[j]].special
    {
      if rows[group[i]].special {
        return true;
      }
      i := i + 1;
    }
    forall k: nat | k < |rows| && Names(w.norm, rows[k], p) ensures !rows[k].special {
      assert k in group;
    }
    return false;
  }

  method HasControl(w: World, s: Subject, controls: map<Pair, nat>, p: Pair) returns (complete: bool)
    requires s.controlPlan.Some? && RowsDistinct(w.norm, s.controlPlan.value.rows)
    requires IndexesRows(w.norm, s.controlPlan.value.rows, controls, |s.controlPlan.value.rows|)
    ensures complete <==> ControlComplete(w, s, p)
  {
    var rows := s.controlPlan.value.rows;
    LookupFinds(w.norm, rows, controls, p);
    hide Controlled, SaysHow, Names;
    if KeyOf(w.norm, p) !in controls {
      return false;
    }
    var k := controls[KeyOf(w.norm, p)];
    LookupUnique(w.norm, rows, k, p);
    ControlledIff(w, rows[k]);
    return Controlled(w, rows[k]);
  }

  // ---------- Link order ----------

  ghost predicate SameLinks(s: Subject, t: Subject) {
    t == s.(links := t.links) && forall p :: p in s.links <==> p in t.links
  }

  lemma CoverageOrder(w: World, s: Subject, t: Subject)
    requires SameLinks(s, t)
    ensures CoverageStatus(w, s) == CoverageStatus(w, t)
  {
    ScopeOrder(w, s, t);
    ScopeOrder(w, t, s);
    hide ScopeComplete, HasUnbound, HasRow, Misbound;
  }

  lemma SpecificationOrder(w: World, s: Subject, t: Subject)
    requires SameLinks(s, t)
    ensures SpecificationStatus(w, s) == SpecificationStatus(w, t)
  {
    ScopeOrder(w, s, t);
    ScopeOrder(w, t, s);
    hide ScopeComplete, HasUnbound, PairConflicts, PairMisbound, PairMissing;
    forall p ensures SpecDocuments(s) ==>
      && PairConflicts(w, s, p) == PairConflicts(w, t, p) && PairMisbound(w, s, p) == PairMisbound(w, t, p)
      && PairMissing(w, s, p) == PairMissing(w, t, p)
    {
      SamePair(w, s, t, p);
    }
  }

  lemma SpecialOrder(w: World, s: Subject, t: Subject)
    requires SameLinks(s, t)
    ensures SpecialStatus(w, s) == SpecialStatus(w, t)
  {
    ScopeOrder(w, s, t);
    ScopeOrder(w, t, s);
    hide ScopeComplete, HasUnbound, HasRow, Misbound, SpecialRisk, ControlComplete;
    forall p ensures s.pfmea.Some? ==> SpecialRisk(w, s, p) == SpecialRisk(w, t, p)
      ensures s.controlPlan.Some? ==> ControlComplete(w, s, p) == ControlComplete(w, t, p)
    {
      SameRisk(w, s, t, p);
    }
  }

  /** The statuses depend on which links there are, not on their order or number of mentions. */
  lemma LinkOrderIrrelevant(w: World, s: Subject, t: Subject)
    requires SameLinks(s, t)
    ensures CoverageStatus(w, s) == CoverageStatus(w, t)
    ensures SpecificationStatus(w, s) == SpecificationStatus(w, t)
    ensures SpecialStatus(w, s) == SpecialStatus(w, t)
  {
    hide *;
    CoverageOrder(w, s, t);
    SpecificationOrder(w, s, t);
    SpecialOrder(w, s, t);
  }

  lemma SamePair(w: World, s: Subject, t: Subject, p: Pair)
    requires t == s.(links := t.links)
    ensures SpecDocuments(s) ==>
      && PairConflicts(w, s, p) == PairConflicts(w, t, p) && PairMisbound(w, s, p) == PairMisbound(w, t, p)
      && PairMissing(w, s, p) == PairMissing(w, t, p)
  {
    hide Disagree, Misbound, Specified;
    if SpecDocuments(s) {
      assert Compared(s) == Compared(t);
    }
  }

  lemma SameRisk(w: World, s: Subject, t: Subject, p: Pair)
    requires t == s.(links := t.links)
    ensures s.pfmea.Some? ==> SpecialRisk(w, s, p) == SpecialRisk(w, t, p)
    ensures s.controlPlan.Some? ==> ControlComplete(w, s, p) == ControlComplete(w, t, p)
  {}

  lemma ScopeOrder(w: World, s: Subject, t: Subject)
    requires t == s.(links := t.links) && forall p :: p in s.links ==> p in t.links
    ensures ScopeComplete(w, s) ==> ScopeComplete(w, t)
  {
    if ScopeComplete(w, s) {
      assert s.links[0] in t.links;
      forall i | 0 <= i < |t.characteristics| ensures Linked(w, t, t.characteristics[i]) {
        assert Linked(w, s, s.characteristics[i]);
        var j :| 0 <= j < |s.links| && w.norm(s.links[j].1) == w.norm(s.characteristics[i]);
        assert s.links[j] in t.links;
        var k :| 0 <= k < |t.links| && t.links[k] == s.links[j];
      }
    }
  }
}

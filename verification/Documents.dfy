/** The JSON a document's fields are written as, the references overlaid on an inspection record, and the
    leaves both have. */
module Documents {
  import opened Json
  import opened Ordering
  import opened Provenance
  import opened EvidencePlanning
  import opened Tables
  import opened Roles
  import opened Builder
  import opened Closure

  // ---------- Fields as JSON ----------

  function TextItems(texts: seq<string>): (r: seq<Json>)
    ensures |r| == |texts| && forall i :: 0 <= i < |r| ==> r[i] == Str(texts[i])
  {
    seq(|texts|, i requires 0 <= i < |texts| => Str(texts[i]))
  }

  function RiskMembers(r: Risk): map<string, Json> {
    map["failure_mode_id" := Str(r.failureModeId), "process_step_id" := Str(r.processStepId),
        "characteristic_id" := Str(r.characteristicId), "special_characteristic" := Bool(r.special),
        "locator" := Str(r.locator)]
      + (if r.effect.Some? then map["effect" := Str(r.effect.value)] else map[])
  }

  function SpecificationMembers(c: Characteristic): map<string, Json> {
    map["target" := c.target, "minimum" := c.minimum, "maximum" := c.maximum, "unit" := Str(c.unit)]
  }

  function CharacteristicMembers(c: Characteristic): map<string, Json> {
    map["process_step_id" := Str(c.processStepId), "characteristic_id" := Str(c.characteristicId),
        "specification" := Obj(SpecificationMembers(c)), "locator" := Str(c.locator)]
      + (if c.controls.Some? then
           map["control_id" := Str(c.controls.value.controlId), "control_method" := Str(c.controls.value.controlMethod),
               "frequency" := Str(c.controls.value.frequency), "reaction_plan" := Str(c.controls.value.reactionPlan)]
         else map[])
  }

  function RiskItems(risks: seq<Risk>): (r: seq<Json>)
    ensures |r| == |risks| && forall i :: 0 <= i < |r| ==> r[i] == Obj(RiskMembers(risks[i]))
  {
    seq(|risks|, i requires 0 <= i < |risks| => Obj(RiskMembers(risks[i])))
  }

  function CharacteristicItems(cs: seq<Characteristic>): (r: seq<Json>)
    ensures |r| == |cs| && forall i :: 0 <= i < |r| ==> r[i] == Obj(CharacteristicMembers(cs[i]))
  {
    seq(|cs|, i requires 0 <= i < |cs| => Obj(CharacteristicMembers(cs[i])))
  }

  /** One reference with its target's type and hash overlaid. */
  function ReferenceMembers(role: string, r: Reference, target: Identity): map<string, Json> {
    map["document_id" := Str(r.documentId), "revision" := Str(r.revision),
        "document_type" := Str(role), "source_hash" := Str(target.sourceHash)]
  }

  datatype References = NoReferences | BothReferences(sop: map<string, Json>, controlPlan: map<string, Json>)

  function ReferenceItems(refs: References): map<string, Json> {
    if refs.NoReferences? then map[]
    else map["references" := Obj(map["SOP" := Obj(refs.sop), "CONTROL_PLAN" := Obj(refs.controlPlan)])]
  }

  function FieldMembers(fields: Fields, refs: References): map<string, Json> {
    match fields
    case StepFields(steps) => map["process_steps" := Arr(TextItems(steps))]
    case RiskFields(steps, risks) => map["process_steps" := Arr(TextItems(steps)), "risks" := Arr(RiskItems(risks))]
    case CharacteristicFields(steps, cs, _) =>
      map["process_steps" := Arr(TextItems(steps)), "characteristics" := Arr(CharacteristicItems(cs))] + ReferenceItems(refs)
  }

  predicate HasReferences(fields: Fields) {
    fields.CharacteristicFields? && ToSop in fields.references && ToControlPlan in fields.references
  }

  predicate IsSha256(s: string) {
    |s| == 64 && forall k :: 0 <= k < 64 ==> '0' <= s[k] <= '9' || 'a' <= s[k] <= 'f'
  }

  /** The registry holds the byte-addressed document a reference names. */
  predicate ResolvesTo(r: Reference, role: string, registry: map<string, Identity>) {
    && role in registry && registry[role].documentType == role
    && registry[role].documentId == r.documentId && registry[role].revision == r.revision
    && IsSha256(registry[role].sourceHash)
  }

  predicate Resolves(fields: Fields, registry: map<string, Identity>)
    requires HasReferences(fields)
  {
    ResolvesTo(fields.references[ToSop], "SOP", registry) && ResolvesTo(fields.references[ToControlPlan], "CONTROL_PLAN", registry)
  }

  /** An inspection record needs its references resolved; other documents have none. */
  predicate Complete(fields: Fields, registry: map<string, Identity>) {
    fields.CharacteristicFields? && fields.references != map[] ==> HasReferences(fields) && Resolves(fields, registry)
  }

  function FinalReferences(fields: Fields, registry: map<string, Identity>): References {
    if HasReferences(fields) && Resolves(fields, registry) then
      BothReferences(ReferenceMembers("SOP", fields.references[ToSop], registry["SOP"]),
                     ReferenceMembers("CONTROL_PLAN", fields.references[ToControlPlan], registry["CONTROL_PLAN"]))
    else NoReferences
  }

  /** The final fields object. */
  function FinalFields(fields: Fields, registry: map<string, Identity>): Json {
    Obj(FieldMembers(fields, FinalReferences(fields, registry)))
  }

  // ---------- Overlaying the references ----------

  function ReferenceEntry(registry: map<string, Identity>, t: RefTarget, l: RefLeaf): Entry
    requires RefName(t) in registry
  {
    var target := registry[RefName(t)];
    ReferenceIdentity(PathOf(RefRole(t, l)), Str(if l.RefDocumentType? then RefName(t) else target.sourceHash), RefName(t),
                      target.documentId, target.revision, target.sourceHash, REFERENCE_CONTRACT)
  }

  function KindName(e: Entry): string {
    match e
    case Direct(_, _, _, _) => "DIRECT_CELL_VALUE"
    case Aggregate(_, _, _, _, _) => "AGGREGATED_IDENTICAL_VALUES"
    case DerivedLocator(_, _, _, _, _) => "DERIVED_LOCATOR"
    case ReferenceIdentity(_, _, _, _, _, _, _) => "DERIVED_REFERENCE_IDENTITY"
  }

  function EntryKindKey(e: Entry): seq<string> {
    [TargetText(e.target), KindName(e)]
  }

  /** The two entries one reference adds. */
  function OverlaidEntries(registry: map<string, Identity>, t: RefTarget): seq<Entry>
    requires RefName(t) in registry
  {
    [ReferenceEntry(registry, t, RefDocumentType), ReferenceEntry(registry, t, RefSourceHash)]
  }

  method OverlayReference(fields: Fields, registry: map<string, Identity>, t: RefTarget, entries: seq<Entry>)
    returns (r: Option<(map<string, Json>, seq<Entry>)>)
    requires HasReferences(fields) && t in fields.references
    ensures r.Some? <==> ResolvesTo(fields.references[t], RefName(t), registry)
    ensures r.Some? ==>
      && r.value.0 == ReferenceMembers(RefName(t), fields.references[t], registry[RefName(t)])
      && r.value.1 == entries + OverlaidEntries(registry, t)
  {
    var role := RefName(t);
    if !ResolvesTo(fields.references[t], role, registry) {
      return None;
    }
    return Some((ReferenceMembers(role, fields.references[t], registry[role]), entries + OverlaidEntries(registry, t)));
  }

  /** `_finalize_inspection_reference_with_registry`: refuses exactly the references the registry does not
      resolve; otherwise two more leaves and two more entries per reference. */
  method FinalizeReferences(fields: Fields, registry: map<string, Identity>, entries: seq<Entry>)
    returns (r: Option<(Json, seq<Entry>)>)
    requires HasReferences(fields)
    ensures r.Some? <==> Resolves(fields, registry)
    ensures r.Some? ==>
      && r.value.0 == FinalFields(fields, registry)
      && multiset(r.value.1) == multiset(entries + OverlaidEntries(registry, ToSop) + OverlaidEntries(registry, ToControlPlan))
      && Sorted(r.value.1, ByKey(EntryKindKey))
  {
    hide EntryKindKey, ReferenceMembers, OverlaidEntries, ResolvesTo;
    var sop := OverlayReference(fields, registry, ToSop, entries);
    if sop.None? {
      return None;
    }
    var controlPlan := OverlayReference(fields, registry, ToControlPlan, sop.value.1);
    if controlPlan.None? {
      return None;
    }
    SortSorts(controlPlan.value.1, ByKey(EntryKindKey));
    return Some((Obj(FieldMembers(fields, BothReferences(sop.value.0, controlPlan.value.0))),
                 Sort(controlPlan.value.1, ByKey(EntryKindKey))));
  }

  // ---------- Leaves ----------

  function RiskLeaf(r: Risk, c: Canonical): Option<Json> {
    match c
    case FailureModeId => Some(Str(r.failureModeId))
    case ProcessStepId => Some(Str(r.processStepId))
    case CharacteristicId => Some(Str(r.characteristicId))
    case SpecialCharacteristic => Some(Bool(r.special))
    case Effect => if r.effect.Some? then Some(Str(r.effect.value)) else None
    case _ => None
  }

  function CharacteristicLeaf(ch: Characteristic, c: Canonical): Option<Json> {
    match c
    case ProcessStepId => Some(Str(ch.processStepId))
    case CharacteristicId => Some(Str(ch.characteristicId))
    case Target => Some(ch.target)
    case Minimum => Some(ch.minimum)
    case Maximum => Some(ch.maximum)
    case Unit => Some(Str(ch.unit))
    case ControlId => if ch.controls.Some? then Some(Str(ch.controls.value.controlId)) else None
    case ControlMethod => if ch.controls.Some? then Some(Str(ch.controls.value.controlMethod)) else None
    case Frequency => if ch.controls.Some? then Some(Str(ch.controls.value.frequency)) else None
    case ReactionPlan => if ch.controls.Some? then Some(Str(ch.controls.value.reactionPlan)) else None
    case _ => None
  }

  function ReferenceLeaf(role: string, r: Reference, target: Identity, l: RefLeaf): Json {
    match l
    case RefDocumentId => Str(r.documentId)
    case RefRevision => Str(r.revision)
    case RefDocumentType => Str(role)
    case RefSourceHash => Str(target.sourceHash)
  }

  /** The scalar a leaf of the final fields holds, None where the document has no such leaf. */
  function LeafValue(fields: Fields, registry: map<string, Identity>, role: Role): Option<Json> {
    match role
    case StepRole(i) => if i < |fields.steps| then Some(Str(fields.steps[i])) else None
    case RiskRole(i, c) => if fields.RiskFields? && i < |fields.risks| then RiskLeaf(fields.risks[i], c) else None
    case RiskLocator(i) => if fields.RiskFields? && i < |fields.risks| then Some(Str(fields.risks[i].locator)) else None
    case CharRole(i, c) =>
      if fields.CharacteristicFields? && i < |fields.characteristics| then CharacteristicLeaf(fields.characteristics[i], c) else None
    case CharLocator(i) =>
      if fields.CharacteristicFields? && i < |fields.characteristics| then Some(Str(fields.characteristics[i].locator)) else None
    case RefRole(t, l) =>
      if HasReferences(fields) && Resolves(fields, registry)
      then Some(ReferenceLeaf(RefName(t), fields.references[t], registry[RefName(t)], l)) else None
  }

  /** Every limit of every characteristic is a scalar. */
  ghost predicate LimitsScalar(fields: Fields) {
    fields.CharacteristicFields? ==>
      forall i :: 0 <= i < |fields.characteristics| ==>
        var c := fields.characteristics[i];
        Scalar(Some(c.target)) && Scalar(Some(c.minimum)) && Scalar(Some(c.maximum))
  }

  lemma StoredInRisk(r: Risk, c: Canonical)
    requires RiskLeaf(r, c).Some?
    ensures !InSpecification(c) && Name(c) in RiskMembers(r) && RiskMembers(r)[Name(c)] == RiskLeaf(r, c).value
  {}

  lemma StoredInCharacteristic(ch: Characteristic, c: Canonical)
    requires CharacteristicLeaf(ch, c).Some?
    ensures InSpecification(c) ==> Name(c) in SpecificationMembers(ch) && SpecificationMembers(ch)[Name(c)] == CharacteristicLeaf(ch, c).value
    ensures !InSpecification(c) ==> Name(c) in CharacteristicMembers(ch) && CharacteristicMembers(ch)[Name(c)] == CharacteristicLeaf(ch, c).value
  {}

  lemma StoredInReference(role: string, r: Reference, target: Identity, l: RefLeaf)
    ensures RefLeafName(l) in ReferenceMembers(role, r, target)
    ensures ReferenceMembers(role, r, target)[RefLeafName(l)] == ReferenceLeaf(role, r, target, l)
  {}

  lemma InObject(m: map<string, Json>, p: Path)
    requires p != [] && p[0].Key? && p[0].name in m
    ensures ValueAt(Obj(m), p) == ValueAt(m[p[0].name], p[1..])
  {}

  lemma InArray(items: seq<Json>, p: Path)
    requires p != [] && p[0].At? && p[0].index < |items|
    ensures ValueAt(Arr(items), p) == ValueAt(items[p[0].index], p[1..])
  {}

  lemma AtItem(items: seq<Json>, m: map<string, Json>, i: nat, p: Path)
    requires |p| >= 2 && p[0] == At(i) && i < |items| && items[i] == Obj(m) && p[1].Key? && p[1].name in m
    ensures ValueAt(Arr(items), p) == ValueAt(m[p[1].name], p[2..])
  {
    InArray(items, p);
    InObject(m, p[1..]);
    assert p[1..][1..] == p[2..];
  }

  /** A leaf's value is found at its path. */
  lemma LeafStored(fields: Fields, registry: map<string, Identity>, role: Role)
    requires LeafValue(fields, registry, role).Some?
    ensures ValueAt(FinalFields(fields, registry), PathOf(role)[1..]) == LeafValue(fields, registry, role)
  {
    var members := FieldMembers(fields, FinalReferences(fields, registry));
    var p := PathOf(role)[1..];
    hide RiskMembers, CharacteristicMembers, SpecificationMembers, ReferenceMembers, RiskLeaf, CharacteristicLeaf, ReferenceLeaf, Resolves, InSpecification,
      RiskItems, CharacteristicItems, TextItems, FieldMembers, FinalReferences;
    FieldLists(fields, FinalReferences(fields, registry));
    var q := p[1..];
    if role.RefRole? {
      ReferenceStored(fields, registry, role.target, role.leaf, q);
    }
    InObject(members, p);
    match role
    case StepRole(i) =>
      InArray(TextItems(fields.steps), q);
    case RiskRole(i, c) =>
      StoredInRisk(fields.risks[i], c);
      RiskMemberAt(fields.risks, i, Name(c), q);
    case RiskLocator(i) =>
      LocatorStored(fields, i);
      RiskMemberAt(fields.risks, i, "locator", q);
    case CharRole(i, c) =>
      CharacteristicStored(fields, i, c, q);
    case CharLocator(i) =>
      LocatorStored(fields, i);
      AtItem(CharacteristicItems(fields.characteristics), CharacteristicMembers(fields.characteristics[i]), i, q);
      assert q[2..] == [];
    case _ =>
  }

  lemma FieldLists(fields: Fields, refs: References)
    ensures var m := FieldMembers(fields, refs);
      && "process_steps" in m && m["process_steps"] == Arr(TextItems(fields.steps))
      && (fields.RiskFields? ==> "risks" in m && m["risks"] == Arr(RiskItems(fields.risks)))
      && (fields.CharacteristicFields? ==> "characteristics" in m && m["characteristics"] == Arr(CharacteristicItems(fields.characteristics)))
  {
    hide TextItems, RiskItems, CharacteristicItems;
  }

  lemma RiskMemberAt(risks: seq<Risk>, i: nat, name: string, q: Path)
    requires i < |risks| && name in RiskMembers(risks[i]) && q == [At(i), Key(name)]
    ensures ValueAt(Arr(RiskItems(risks)), q) == Some(RiskMembers(risks[i])[name])
  {
    hide RiskMembers;
    AtItem(RiskItems(risks), RiskMembers(risks[i]), i, q);
    assert q[2..] == [];
  }

  lemma LocatorStored(fields: Fields, i: nat)
    ensures fields.RiskFields? && i < |fields.risks| ==>
      "locator" in RiskMembers(fields.risks[i]) && RiskMembers(fields.risks[i])["locator"] == Str(fields.risks[i].locator)
    ensures fields.CharacteristicFields? && i < |fields.characteristics| ==>
      var m := CharacteristicMembers(fields.characteristics[i]);
      "locator" in m && m["locator"] == Str(fields.characteristics[i].locator)
  {}

  lemma CharacteristicStored(fields: Fields, i: nat, c: Canonical, q: Path)
    requires fields.CharacteristicFields? && i < |fields.characteristics| && CharacteristicLeaf(fields.characteristics[i], c).Some?
    requires q == [At(i)] + (if InSpecification(c) then [Key("specification"), Key(Name(c))] else [Key(Name(c))])
    ensures ValueAt(Arr(CharacteristicItems(fields.characteristics)), q) == CharacteristicLeaf(fields.characteristics[i], c)
  {
    var ch := fields.characteristics[i];
    StoredInCharacteristic(ch, c);
    if InSpecification(c) {
      SpecificationStored(ch);
    }
    hide CharacteristicMembers, SpecificationMembers, CharacteristicLeaf;
    AtItem(CharacteristicItems(fields.characteristics), CharacteristicMembers(ch), i, q);
    if InSpecification(c) {
      InObject(SpecificationMembers(ch), q[2..]);
      assert q[2..][1..] == [];
    } else {
      assert q[2..] == [];
    }
  }

  lemma SpecificationStored(ch: Characteristic)
    ensures "specification" in CharacteristicMembers(ch) && CharacteristicMembers(ch)["specification"] == Obj(SpecificationMembers(ch))
  {}

  lemma ReferenceStored(fields: Fields, registry: map<string, Identity>, t: RefTarget, l: RefLeaf, q: Path)
    requires HasReferences(fields) && Resolves(fields, registry) && q == [Key(RefName(t)), Key(RefLeafName(l))]
    ensures "references" in FieldMembers(fields, FinalReferences(fields, registry))
    ensures ValueAt(FieldMembers(fields, FinalReferences(fields, registry))["references"], q)
      == Some(ReferenceLeaf(RefName(t), fields.references[t], registry[RefName(t)], l))
  {
    var refs := FinalReferences(fields, registry);
    StoredInReference(RefName(t), fields.references[t], registry[RefName(t)], l);
    hide ReferenceMembers, ReferenceLeaf;
    InObject(map["SOP" := Obj(refs.sop), "CONTROL_PLAN" := Obj(refs.controlPlan)], q);
    InObject(if t.ToSop? then refs.sop else refs.controlPlan, q[1..]);
    assert q[1..][1..] == [];
  }

  // ---------- No other leaf ----------

  lemma RiskMemberNamed(r: Risk, name: string) returns (c: Option<Canonical>)
    requires name in RiskMembers(r)
    ensures c.None? ==> name == "locator"
    ensures c.Some? ==> name == Name(c.value) && !InSpecification(c.value) && RiskLeaf(r, c.value).Some?
    ensures Scalar(Some(RiskMembers(r)[name]))
  {
    c := if name == "failure_mode_id" then Some(FailureModeId)
         else if name == "process_step_id" then Some(ProcessStepId)
         else if name == "characteristic_id" then Some(CharacteristicId)
         else if name == "special_characteristic" then Some(SpecialCharacteristic)
         else if name == "effect" then Some(Effect) else None;
  }

  lemma CharacteristicMemberNamed(ch: Characteristic, name: string) returns (c: Option<Canonical>)
    requires name in CharacteristicMembers(ch) && name != "specification"
    ensures c.None? ==> name == "locator"
    ensures c.Some? ==> name == Name(c.value) && !InSpecification(c.value) && CharacteristicLeaf(ch, c.value).Some?
    ensures Scalar(Some(CharacteristicMembers(ch)[name]))
  {
    hide SpecificationMembers;
    c := if name == "process_step_id" then Some(ProcessStepId)
         else if name == "characteristic_id" then Some(CharacteristicId)
         else if name == "control_id" then Some(ControlId)
         else if name == "control_method" then Some(ControlMethod)
         else if name == "frequency" then Some(Frequency)
         else if name == "reaction_plan" then Some(ReactionPlan) else None;
  }

  lemma SpecificationMemberNamed(ch: Characteristic, name: string) returns (c: Canonical)
    requires name in SpecificationMembers(ch)
    ensures name == Name(c) && InSpecification(c) && CharacteristicLeaf(ch, c).Some?
    ensures SpecificationMembers(ch)[name] == CharacteristicLeaf(ch, c).value
  {
    c := if name == "target" then Target else if name == "minimum" then Minimum else if name == "maximum" then Maximum else Unit;
  }

  lemma ReferenceMemberNamed(role: string, r: Reference, target: Identity, name: string) returns (l: RefLeaf)
    requires name in ReferenceMembers(role, r, target)
    ensures name == RefLeafName(l)
    ensures Scalar(Some(ReferenceMembers(role, r, target)[name]))
  {
    l := if name == "document_id" then RefDocumentId else if name == "revision" then RefRevision
         else if name == "document_type" then RefDocumentType else RefSourceHash;
  }

  lemma BelowScalar(v: Json, p: Path)
    requires Scalar(Some(v)) && ValueAt(v, p).Some?
    ensures p == []
  {}

  /** Every scalar of the final fields is one of the named leaves. */
  lemma LeafNamed(fields: Fields, registry: map<string, Identity>, p: Path) returns (role: Role)
    requires LimitsScalar(fields) && Complete(fields, registry) && Scalar(ValueAt(FinalFields(fields, registry), p))
    ensures [Key("fields")] + p == PathOf(role) && LeafValue(fields, registry, role).Some?
  {
    hide RiskMembers, CharacteristicMembers, SpecificationMembers, ReferenceMembers, RiskLeaf, CharacteristicLeaf, ReferenceLeaf, Resolves, InSpecification,
      RiskItems, CharacteristicItems, TextItems, LimitsScalar;
    var members := FieldMembers(fields, FinalReferences(fields, registry));
    assert p != [] && p[0].Key? && p[0].name in members;
    InObject(members, p);
    var q := p[1..];
    assert p == [p[0]] + q;
    if p[0].name == "process_steps" {
      role := StepNamed(fields, q);
    } else if p[0].name == "risks" {
      role := RiskNamed(fields, q);
    } else if p[0].name == "characteristics" {
      role := CharacteristicNamed(fields, q);
    } else {
      role := ReferenceNamed(fields, registry, q);
    }
  }

  lemma StepNamed(fields: Fields, q: Path) returns (role: Role)
    requires Scalar(ValueAt(Arr(TextItems(fields.steps)), q))
    ensures PathOf(role) == [Key("fields"), Key("process_steps")] + q && role.StepRole? && role.index < |fields.steps|
  {
    assert q != [] && q[0].At? && q[0].index < |fields.steps|;
    InArray(TextItems(fields.steps), q);
    BelowScalar(Str(fields.steps[q[0].index]), q[1..]);
    role := StepRole(q[0].index);
    assert q == [q[0]];
  }

  lemma RiskNamed(fields: Fields, q: Path) returns (role: Role)
    requires fields.RiskFields? && Scalar(ValueAt(Arr(RiskItems(fields.risks)), q))
    ensures PathOf(role) == [Key("fields"), Key("risks")] + q
    ensures role.RiskLocator? || role.RiskRole?
    ensures role.RiskLocator? ==> role.index < |fields.risks|
    ensures role.RiskRole? ==> role.index < |fields.risks| && RiskLeaf(fields.risks[role.index], role.column).Some?
  {
    hide RiskMembers, RiskLeaf;
    assert q != [] && q[0].At? && q[0].index < |fields.risks|;
    InArray(RiskItems(fields.risks), q);
    var i := q[0].index;
    var members := RiskMembers(fields.risks[i]);
    var rest := q[1..];
    assert rest != [] && rest[0].Key? && rest[0].name in members;
    InObject(members, rest);
    var c := RiskMemberNamed(fields.risks[i], rest[0].name);
    BelowScalar(members[rest[0].name], rest[1..]);
    assert q == [q[0]] + [rest[0]];
    role := if c.Some? then RiskRole(i, c.value) else RiskLocator(i);
  }

  lemma CharacteristicNamed(fields: Fields, q: Path) returns (role: Role)
    requires fields.CharacteristicFields? && LimitsScalar(fields) && Scalar(ValueAt(Arr(CharacteristicItems(fields.characteristics)), q))
    ensures PathOf(role) == [Key("fields"), Key("characteristics")] + q
    ensures role.CharLocator? || role.CharRole?
    ensures role.CharLocator? ==> role.index < |fields.characteristics|
    ensures role.CharRole? ==>
      role.index < |fields.characteristics| && CharacteristicLeaf(fields.characteristics[role.index], role.column).Some?
  {
    hide CharacteristicMembers, SpecificationMembers, CharacteristicLeaf;
    assert q != [] && q[0].At? && q[0].index < |fields.characteristics|;
    InArray(CharacteristicItems(fields.characteristics), q);
    var i := q[0].index;
    var ch := fields.characteristics[i];
    var members := CharacteristicMembers(ch);
    var rest := q[1..];
    assert rest != [] && rest[0].Key? && rest[0].name in members;
    InObject(members, rest);
    if rest[0].name == "specification" {
      SpecificationStored(ch);
      var low := rest[1..];
      assert low != [] && low[0].Key? && low[0].name in SpecificationMembers(ch);
      InObject(SpecificationMembers(ch), low);
      var c := SpecificationMemberNamed(ch, low[0].name);
      SpecificationScalar(ch, c);
      BelowScalar(SpecificationMembers(ch)[low[0].name], low[1..]);
      assert q == [q[0], rest[0], low[0]];
      role := CharRole(i, c);
    } else {
      var c := CharacteristicMemberNamed(ch, rest[0].name);
      BelowScalar(members[rest[0].name], rest[1..]);
      assert q == [q[0]] + [rest[0]];
      role := if c.Some? then CharRole(i, c.value) else CharLocator(i);
    }
  }

  lemma SpecificationScalar(ch: Characteristic, c: Canonical)
    requires InSpecification(c) && CharacteristicLeaf(ch, c).Some?
    requires Scalar(Some(ch.target)) && Scalar(Some(ch.minimum)) && Scalar(Some(ch.maximum))
    ensures Scalar(CharacteristicLeaf(ch, c))
  {}

  lemma ReferenceNamed(fields: Fields, registry: map<string, Identity>, q: Path) returns (role: Role)
    requires HasReferences(fields) && Resolves(fields, registry)
    requires "references" in FieldMembers(fields, FinalReferences(fields, registry))
    requires Scalar(ValueAt(FieldMembers(fields, FinalReferences(fields, registry))["references"], q))
    ensures PathOf(role) == [Key("fields"), Key("references")] + q && role.RefRole?
  {
    var refs := FinalReferences(fields, registry);
    hide ReferenceMembers, ReferenceLeaf;
    assert q != [] && q[0].Key? && (q[0].name == "SOP" || q[0].name == "CONTROL_PLAN");
    var t := if q[0].name == "SOP" then ToSop else ToControlPlan;
    var members := if t.ToSop? then refs.sop else refs.controlPlan;
    InObject(map["SOP" := Obj(refs.sop), "CONTROL_PLAN" := Obj(refs.controlPlan)], q);
    var rest := q[1..];
    assert rest != [] && rest[0].Key? && rest[0].name in members;
    InObject(members, rest);
    var l := ReferenceMemberNamed(RefName(t), fields.references[t], registry[RefName(t)], rest[0].name);
    BelowScalar(members[rest[0].name], rest[1..]);
    assert q == [q[0]] + [rest[0]];
    role := RefRole(t, l);
  }
}

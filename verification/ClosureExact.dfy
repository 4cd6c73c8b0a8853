/** Exactly which provenance lists pass the closure check of an honest build. */
module ClosureExact {
  import opened Json
  import opened Ordering
  import opened Provenance
  import opened EvidencePlanning
  import opened Tables
  import opened Roles
  import opened Feeds
  import opened Builder
  import opened PlanBuilder
  import opened Agreement
  import opened Closure
  import opened Documents
  import opened HonestClosure
  import opened ClosureTheorem
  import opened Submitted

  ghost predicate Known(ev: Evidence, ctx: Context, m: Entry) {
    exists e :: FullyExpected(ev, ctx, e) && EntryEq(m, e)
  }

  /** The expected provenance in any order, values compared as Python does. */
  ghost predicate UpToPython(ev: Evidence, ctx: Context, mappings: seq<Entry>) {
    && DistinctTargets(mappings)
    && (forall k :: 0 <= k < |mappings| ==> Known(ev, ctx, mappings[k]))
    && (forall e :: FullyExpected(ev, ctx, e) ==> MappedAs(mappings, e))
  }

  // ---------- An accepted list holds nothing else ----------

  lemma ReferenceRole(role: Role, name: string)
    requires |PathOf(role)| > 3 && PathOf(role)[1] == Key("references") && PathOf(role)[2] == Key(name)
    requires PathOf(role)[|PathOf(role)| - 1] == Key("document_type") || PathOf(role)[|PathOf(role)| - 1] == Key("source_hash")
    ensures role.RefRole? && RefName(role.target) == name && IsOverlaid(role.leaf)
    ensures PathOf(role)[|PathOf(role)| - 1] == Key(if role.leaf.RefDocumentType? then "document_type" else "source_hash")
  {}

  lemma PyEqText(v: Json, s: string)
    requires PyEq(v, Str(s))
    ensures v == Str(s)
  {}

  /** A backed reference identity at a leaf of the document is one the overlay adds. */
  lemma BackedReference(ev: Evidence, ctx: Context, m: Entry, role: Role)
    requires Honest(ev, ctx) && m.ReferenceIdentity? && m.target == PathOf(role)
    requires LeafValue(FieldsOf(ctx), ev.registry, role).Some? && Backed(ev, m, LeafValue(FieldsOf(ctx), ev.registry, role).value)
    requires PyEq(m.value, LeafValue(FieldsOf(ctx), ev.registry, role).value)
    ensures ReferenceExpected(ev, ctx, m)
  {
    ReferenceRole(role, m.role);
    InspectionReferences(ctx);
    hide FieldsOf, Mappable, AllParserCells, IsProvenance, FinalFields, Complete, Sound, PathOf;
    PyEqText(m.value, LeafOf(ev.registry[m.role], m.target[|m.target| - 1].name));
    assert m == ReferenceEntry(ev.registry, role.target, role.leaf);
  }

  lemma AcceptedReference(ev: Evidence, ctx: Context, mappings: seq<Entry>, k: nat)
    requires Honest(ev, ctx) && Closed(ev, mappings) && k < |mappings| && mappings[k].ReferenceIdentity?
    ensures ReferenceExpected(ev, ctx, mappings[k])
  {
    var role := TargetRole(ev, ctx, mappings, k);
    assert MappingOk(ev, mappings[k]);
    hide FieldsOf, Honest, PathOf, CellsOk, PlanOk, FollowsPlan, Anchored, LimitsScalar, ScalarLeaves, Targets, LeafValue, Backed;
    RootValue(ev, ctx, role);
    BackedReference(ev, ctx, mappings[k], role);
  }

  /** The leaf a mapping's target names. */
  lemma TargetRole(ev: Evidence, ctx: Context, mappings: seq<Entry>, k: nat) returns (role: Role)
    requires Honest(ev, ctx) && Closed(ev, mappings) && k < |mappings|
    ensures LeafValue(FieldsOf(ctx), ev.registry, role).Some? && PathOf(role) == mappings[k].target
  {
    LimitsAreScalar(ctx);
    var m := mappings[k];
    assert m.target in Targets(mappings);
    LeafIff(ev.document.fields, [Key("fields")], m.target);
    hide FieldsOf, Mappable, AllParserCells, IsProvenance, FinalFields, Sound, PathOf, CellsOk, PlanOk, FollowsPlan, Anchored,
      LimitsScalar, ScalarLeaves, Targets, LeafValue, Backed, MappingOk;
    assert m.target == [Key("fields")] + m.target[1..];
    role := LeafNamed(FieldsOf(ctx), ev.registry, m.target[1..]);
  }

  lemma AcceptedKnown(ev: Evidence, ctx: Context, mappings: seq<Entry>, k: nat)
    requires Honest(ev, ctx) && Closed(ev, mappings) && k < |mappings|
    ensures Known(ev, ctx, mappings[k])
  {
    var m := mappings[k];
    hide FieldsOf, Mappable, AllParserCells, FinalFields, Sound, CellsOk, PlanOk, Anchored, ScalarLeaves, Targets, EntryEq, MappingOk, Complete,
      Expected, ReferenceExpected, IsProvenance;
    if m.ReferenceIdentity? {
      AcceptedReference(ev, ctx, mappings, k);
      EntryEqReflexive(m);
    } else {
      assert PlannedFor(ev, m);
      var j :| 0 <= j < |ev.expected| && EntryEq(m, ev.expected[j]);
      ListedExpected(ctx, ev.expected, ev.expected[j]);
      assert FullyExpected(ev, ctx, ev.expected[j]);
    }
  }

  /** The full provenance has one entry per target. */
  lemma OnePerTarget(ev: Evidence, ctx: Context, a: Entry, b: Entry)
    requires Honest(ev, ctx) && FullyExpected(ev, ctx, a) && FullyExpected(ev, ctx, b)
    ensures a.target == b.target ==> a == b
  {
    if a.target == b.target {
      var x := EntryLeaf(ev, ctx, a);
      var y := EntryLeaf(ev, ctx, b);
      PathsDiffer(x, y);
      hide FieldsOf, Mappable, AllParserCells, FinalFields, Sound, Complete, IsProvenance, PathOf, LeafValue, LocatorEntry;
      if LocatorOf(ctx, a, |Rows(ctx)|) {
        var i: nat :| i < |Rows(ctx)| && a == LocatorEntry(ctx, i);
        var j: nat :| j < |Rows(ctx)| && b == LocatorEntry(ctx, j);
        LocatorTarget(ctx, i);
        LocatorTarget(ctx, j);
        LocatorsDiffer(ctx, i, j);
      } else if ReferenceExpected(ev, ctx, a) {
        var t, l :| IsOverlaid(l) && RefName(t) in ev.registry && a == ReferenceEntry(ev.registry, t, l);
        var u, o :| IsOverlaid(o) && RefName(u) in ev.registry && b == ReferenceEntry(ev.registry, u, o);
        PathsDiffer(RefRole(t, l), RefRole(u, o));
      }
    }
  }

  lemma AcceptedComplete(ev: Evidence, ctx: Context, mappings: seq<Entry>, e: Entry)
    requires Honest(ev, ctx) && Closed(ev, mappings) && FullyExpected(ev, ctx, e)
    ensures MappedAs(mappings, e)
  {
    if Expected(ctx, e) {
      hide FieldsOf, Mappable, AllParserCells, FinalFields, Sound, CellsOk, PlanOk, Anchored, ScalarLeaves, Targets, EntryEq, MappingOk,
        Complete, Expected, IsProvenance;
      ListedExpected(ctx, ev.expected, e);
      var j :| 0 <= j < |ev.expected| && ev.expected[j] == e;
      assert MappedAs(mappings, ev.expected[j]);
    } else {
      LeafIsMapped(ev, ctx, mappings, e);
      hide FieldsOf, Mappable, AllParserCells, FinalFields, Sound, CellsOk, PlanOk, Anchored, ScalarLeaves, EntryEq, MappingOk,
        Complete, Expected, IsProvenance, FullyExpected, Closed;
      var k: nat :| k < |mappings| && mappings[k].target == e.target;
      AcceptedKnown(ev, ctx, mappings, k);
      var known :| FullyExpected(ev, ctx, known) && EntryEq(mappings[k], known);
      EntryEqKeeps(mappings[k], known);
      OnePerTarget(ev, ctx, known, e);
    }
  }

  lemma LeafIsMapped(ev: Evidence, ctx: Context, mappings: seq<Entry>, e: Entry)
    requires Honest(ev, ctx) && Closed(ev, mappings) && FullyExpected(ev, ctx, e)
    ensures e.target in Targets(mappings)
  {
    var role := EntryLeaf(ev, ctx, e);
    LeafStored(FieldsOf(ctx), ev.registry, role);
    FieldsFirst(role);
    LeafIff(ev.document.fields, [Key("fields")], e.target);
  }

  // ---------- Every such list is accepted ----------

  lemma {:induction false} Witnesses(ev: Evidence, ctx: Context, mappings: seq<Entry>) returns (exact: seq<Entry>)
    requires forall k :: 0 <= k < |mappings| ==> Known(ev, ctx, mappings[k])
    ensures |exact| == |mappings|
    ensures forall k :: 0 <= k < |exact| ==> FullyExpected(ev, ctx, exact[k]) && EntryEq(mappings[k], exact[k])
  {
    hide FullyExpected, EntryEq;
    exact := [];
    if mappings != [] {
      var n := |mappings| - 1;
      var front := Witnesses(ev, ctx, mappings[..n]);
      assert Known(ev, ctx, mappings[n]);
      var e :| FullyExpected(ev, ctx, e) && EntryEq(mappings[n], e);
      exact := front + [e];
    }
  }

  lemma WitnessesExchange(ev: Evidence, ctx: Context, m: Entry, e: Entry)
    requires Honest(ev, ctx) && FullyExpected(ev, ctx, e) && EntryEq(m, e)
    ensures e == m || (IsCellEntry(e) && EntryEq(m, e))
  {
    var role := EntryLeaf(ev, ctx, e);
    if !CellEntry(ctx, e) {
      TextValue(ev, ctx, e);
      PyEqText(m.value, e.value.s);
    }
  }

  lemma TextValue(ev: Evidence, ctx: Context, e: Entry)
    requires Honest(ev, ctx) && FullyExpected(ev, ctx, e) && !CellEntry(ctx, e)
    ensures e.value.Str?
  {
    hide FieldsOf, Mappable, AllParserCells, FinalFields, Sound, Complete, IsProvenance, PathOf, CellEntry, LocatorEntry;
    if LocatorOf(ctx, e, |Rows(ctx)|) {
      var i: nat :| i < |Rows(ctx)| && e == LocatorEntry(ctx, i);
      LocatorLeaf(ctx, ev.registry, i);
    }
  }

  lemma ExactList(ev: Evidence, ctx: Context, mappings: seq<Entry>, exact: seq<Entry>)
    requires Honest(ev, ctx) && UpToPython(ev, ctx, mappings) && |exact| == |mappings|
    requires forall k :: 0 <= k < |exact| ==> FullyExpected(ev, ctx, exact[k]) && EntryEq(mappings[k], exact[k])
    ensures IsFullProvenance(ev, ctx, exact) && Exchanged(exact, mappings)
  {
    hide FullyExpected, EntryEq, Honest, Known, IsCellEntry;
    forall k | 0 <= k < |exact|
      ensures exact[k].target == mappings[k].target && (exact[k] == mappings[k] || (IsCellEntry(exact[k]) && EntryEq(mappings[k], exact[k])))
    {
      EntryEqKeeps(mappings[k], exact[k]);
      WitnessesExchange(ev, ctx, mappings[k], exact[k]);
    }
    forall e ensures e in exact <==> FullyExpected(ev, ctx, e) {
      if FullyExpected(ev, ctx, e) {
        assert MappedAs(mappings, e);
        var k :| 0 <= k < |mappings| && EntryEq(mappings[k], e);
        EntryEqKeeps(mappings[k], e);
        OnePerTarget(ev, ctx, exact[k], e);
      }
    }
  }

  /** Within the size limits, the check accepts a list exactly when it is the expected provenance in some
      order, values compared as Python compares them: a dropped, swapped or altered contributor is refused. */
  lemma AcceptedExactly(ev: Evidence, ctx: Context, mappings: seq<Entry>)
    requires Honest(ev, ctx) && WithinLimits(ev, mappings)
    ensures Closed(ev, mappings) <==> UpToPython(ev, ctx, mappings)
  {
    hide Honest, FullyExpected, Known, MappedAs, EntryEq;
    if Closed(ev, mappings) {
      forall k | 0 <= k < |mappings| ensures Known(ev, ctx, mappings[k]) {
        AcceptedKnown(ev, ctx, mappings, k);
      }
      forall e | FullyExpected(ev, ctx, e) ensures MappedAs(mappings, e) {
        AcceptedComplete(ev, ctx, mappings, e);
      }
    }
    if UpToPython(ev, ctx, mappings) {
      var exact := Witnesses(ev, ctx, mappings);
      ExactList(ev, ctx, mappings, exact);
      HonestAccepted(ev, ctx, exact);
      EqualValuesInterchange(ev, exact, mappings);
    }
  }

  // ---------- Lists as they arrive ----------

  /** The entry is an expected one as Python compares dictionaries; a locator's coordinates are integers. */
  ghost predicate KnownMapping(ev: Evidence, ctx: Context, m: Mapping) {
    && (m.LocatorMapping? ==> m.source.row.Int? && m.source.column.Int?)
    && exists e :: FullyExpected(ev, ctx, e) && MatchesPlan(m, e)
  }

  /** The expected provenance in any order, entries compared as Python compares them. */
  ghost predicate EqualProvenance(ev: Evidence, ctx: Context, ms: seq<Mapping>) {
    && DistinctMappings(ms)
    && (forall k :: 0 <= k < |ms| ==> KnownMapping(ev, ctx, ms[k]))
    && (forall e :: FullyExpected(ev, ctx, e) ==> MappedHere(ms, e))
  }

  lemma KnownTyped(ev: Evidence, ctx: Context, m: Mapping)
    ensures KnownMapping(ev, ctx, m) <==> Whole(m) && Known(ev, ctx, Typed(m))
  {
    hide FullyExpected, MatchesPlan, EntryEq, Typed;
    if KnownMapping(ev, ctx, m) {
      IntsWhole(m);
      var e :| FullyExpected(ev, ctx, e) && MatchesPlan(m, e);
      MatchIff(m, e);
    }
    if Whole(m) && Known(ev, ctx, Typed(m)) {
      var e :| FullyExpected(ev, ctx, e) && EntryEq(Typed(m), e);
      MatchIff(m, e);
    }
  }

  lemma IntsWhole(m: Mapping)
    ensures m.LocatorMapping? && m.source.row.Int? && m.source.column.Int? ==> Whole(m)
    ensures m.LocatorMapping? && Whole(m) ==> m.source.row.Int? && m.source.column.Int?
  {}

  lemma EqualTypedProvenance(ev: Evidence, ctx: Context, ms: seq<Mapping>)
    ensures EqualProvenance(ev, ctx, ms) <==> AllWhole(ms) && UpToPython(ev, ctx, TypedAll(ms))
  {
    var es := TypedAll(ms);
    hide FullyExpected, MatchesPlan, EntryEq, Typed, Whole, Known, KnownMapping;
    forall k | 0 <= k < |ms|
      ensures es[k].target == ms[k].target && (KnownMapping(ev, ctx, ms[k]) <==> Whole(ms[k]) && Known(ev, ctx, es[k]))
    {
      TypedParts(ms[k]);
      KnownTyped(ev, ctx, ms[k]);
    }
    TargetsTyped(ms);
    if AllWhole(ms) {
      forall e ensures MappedHere(ms, e) <==> MappedAs(es, e) {
        MappedTyped(ms, e);
      }
    }
  }

  lemma MappedTyped(ms: seq<Mapping>, e: Entry)
    requires AllWhole(ms)
    ensures MappedHere(ms, e) <==> MappedAs(TypedAll(ms), e)
  {
    hide MatchesPlan, EntryEq, Typed, Whole;
    forall k | 0 <= k < |ms| ensures MatchesPlan(ms[k], e) <==> EntryEq(TypedAll(ms)[k], e) {
      assert Whole(ms[k]);
      MatchIff(ms[k], e);
    }
  }

  /** Of all lists that can arrive, the check accepts exactly the expected provenance in any order, whole entries
      compared as Python compares them and locators at integer coordinates. */
  lemma SubmittedExactly(ev: Evidence, ctx: Context, ms: seq<Mapping>)
    requires Honest(ev, ctx) && WithinLimits(ev, TypedAll(ms))
    ensures Admitted(ev, ms) <==> EqualProvenance(ev, ctx, ms)
  {
    AdmittedIff(ev, ms);
    EqualTypedProvenance(ev, ctx, ms);
    hide Admitted, Closed, EqualProvenance, UpToPython, AllWhole, TypedAll;
    AcceptedExactly(ev, ctx, TypedAll(ms));
  }

  // ---------- A whole build ----------

  lemma MembersKept(a: seq<Entry>, b: seq<Entry>, e: Entry)
    requires multiset(a) == multiset(b)
    ensures e in a <==> e in b
  {
    assert e in a <==> e in multiset(a);
    assert e in b <==> e in multiset(b);
  }

  lemma DistinctKept(a: seq<Entry>, b: seq<Entry>)
    requires multiset(a) == multiset(b) && DistinctTargets(a)
    ensures DistinctTargets(b)
  {
    NamesKept(a, b, (e: Entry) => e.target);
  }

  lemma ReferencesComplete(ctx: Context, registry: map<string, Identity>)
    requires Rows(ctx) != []
    ensures ctx.spec.documentType.InspectionRecord? ==>
      (Complete(FieldsOf(ctx), registry) <==> HasReferences(FieldsOf(ctx)) && Resolves(FieldsOf(ctx), registry))
    ensures !ctx.spec.documentType.InspectionRecord? ==> Complete(FieldsOf(ctx), registry) && !HasReferences(FieldsOf(ctx))
  {
    InspectionReferences(ctx);
    hide StepsOf, CharacteristicOf, RiskOf, TextOf, Resolves;
  }

  /** The listed entries and the reference identities together are the full provenance. */
  lemma CombinedExpected(ev: Evidence, ctx: Context, entries: seq<Entry>, added: seq<Entry>)
    requires Honest(ev, ctx) && IsProvenance(ctx, entries)
    requires forall e :: e in added <==> ReferenceExpected(ev, ctx, e)
    requires forall i, j :: 0 <= i < j < |added| ==> added[i] != added[j]
    ensures forall e :: e in entries + added <==> FullyExpected(ev, ctx, e)
    ensures DistinctTargets(entries + added)
  {
    hide Honest, Expected, ReferenceExpected, IsProvenance;
    var all := entries + added;
    forall e ensures e in all <==> FullyExpected(ev, ctx, e) {
      ListedExpected(ctx, entries, e);
      assert e in all <==> e in entries || e in added;
    }
    ProvenanceDistinct(ctx, entries);
    hide FullyExpected, DistinctTargets;
    forall i, j | 0 <= i < j < |all| ensures all[i].target != all[j].target {
      assert all[i] in all && all[j] in all;
      OnePerTarget(ev, ctx, all[i], all[j]);
      NoOverlap(ev, ctx, entries, added, i, j);
    }
    DistinctFrom(all);
  }

  lemma DistinctFrom(entries: seq<Entry>)
    requires forall i, j :: 0 <= i < j < |entries| ==> entries[i].target != entries[j].target
    ensures DistinctTargets(entries)
  {}

  /** The overlaid list is the full provenance. */
  lemma OverlaidProvenance(ev: Evidence, ctx: Context, entries: seq<Entry>, overlaid: seq<Entry>)
    requires Honest(ev, ctx) && IsProvenance(ctx, entries)
    requires ctx.spec.documentType.InspectionRecord? ==> "SOP" in ev.registry && "CONTROL_PLAN" in ev.registry
    requires multiset(overlaid) == multiset(entries
      + (if ctx.spec.documentType.InspectionRecord? then OverlaidEntries(ev.registry, ToSop) + OverlaidEntries(ev.registry, ToControlPlan) else []))
    ensures IsFullProvenance(ev, ctx, overlaid)
  {
    var added := if ctx.spec.documentType.InspectionRecord? then OverlaidEntries(ev.registry, ToSop) + OverlaidEntries(ev.registry, ToControlPlan) else [];
    AddedReferences(ev, ctx, added);
    hide Honest, Expected, ReferenceExpected, OverlaidEntries, IsProvenance;
    var all := entries + added;
    CombinedExpected(ev, ctx, entries, added);
    hide FullyExpected;
    DistinctKept(all, overlaid);
    forall e ensures e in overlaid <==> FullyExpected(ev, ctx, e) {
      MembersKept(all, overlaid, e);
    }
  }

  lemma ProvenanceDistinct(ctx: Context, entries: seq<Entry>)
    requires IsProvenance(ctx, entries)
    ensures DistinctTargets(entries)
  {}

  lemma AddedReferences(ev: Evidence, ctx: Context, added: seq<Entry>)
    requires ctx.spec.documentType.InspectionRecord? ==> "SOP" in ev.registry && "CONTROL_PLAN" in ev.registry
    requires added == if ctx.spec.documentType.InspectionRecord? then OverlaidEntries(ev.registry, ToSop) + OverlaidEntries(ev.registry, ToControlPlan) else []
    ensures forall e :: e in added <==> ReferenceExpected(ev, ctx, e)
    ensures forall i, j :: 0 <= i < j < |added| ==> added[i] != added[j]
  {
    hide ReferenceEntry;
    if ctx.spec.documentType.InspectionRecord? {
      assert added[0] == ReferenceEntry(ev.registry, ToSop, RefDocumentType) && added[1] == ReferenceEntry(ev.registry, ToSop, RefSourceHash);
      assert added[2] == ReferenceEntry(ev.registry, ToControlPlan, RefDocumentType) && added[3] == ReferenceEntry(ev.registry, ToControlPlan, RefSourceHash);
      OverlaidDiffer(ev.registry);
    }
  }

  lemma OverlaidDiffer(registry: map<string, Identity>)
    requires "SOP" in registry && "CONTROL_PLAN" in registry
    ensures ReferenceEntry(registry, ToSop, RefDocumentType) != ReferenceEntry(registry, ToSop, RefSourceHash)
    ensures ReferenceEntry(registry, ToControlPlan, RefDocumentType) != ReferenceEntry(registry, ToControlPlan, RefSourceHash)
    ensures forall l, m :: ReferenceEntry(registry, ToSop, l).role != ReferenceEntry(registry, ToControlPlan, m).role
  {
    PathsDiffer(RefRole(ToSop, RefDocumentType), RefRole(ToSop, RefSourceHash));
    PathsDiffer(RefRole(ToControlPlan, RefDocumentType), RefRole(ToControlPlan, RefSourceHash));
  }

  lemma NoOverlap(ev: Evidence, ctx: Context, entries: seq<Entry>, added: seq<Entry>, i: nat, j: nat)
    requires Honest(ev, ctx) && IsProvenance(ctx, entries)
    requires forall e :: e in added <==> ReferenceExpected(ev, ctx, e)
    requires forall a, b :: 0 <= a < b < |added| ==> added[a] != added[b]
    requires i < j < |entries + added|
    ensures (entries + added)[i] != (entries + added)[j]
  {
    var x, y := (entries + added)[i], (entries + added)[j];
    hide ReferenceExpected, Honest;
    if j < |entries| {
      assert entries[i].target != entries[j].target;
    } else if i < |entries| {
      assert y in added;
      ListedExpected(ctx, entries, x);
      assert x in entries;
      assert FullyExpected(ev, ctx, x) && FullyExpected(ev, ctx, y);
      hide Expected, IsProvenance;
      KindsApart(ev, ctx, x, y);
    } else {
      assert added[i - |entries|] != added[j - |entries|];
    }
  }

  lemma KindsApart(ev: Evidence, ctx: Context, x: Entry, y: Entry)
    requires Honest(ev, ctx) && Expected(ctx, x) && ReferenceExpected(ev, ctx, y)
    ensures x != y
  {
    hide Honest, CellEntry, ReferenceExpected, LocatorOf;
    assert FullyExpected(ev, ctx, x) && FullyExpected(ev, ctx, y);
    var a := EntryLeaf(ev, ctx, x);
    var b := EntryLeaf(ev, ctx, y);
  }

  /** The three size limits of the check. */
  predicate Fits(cells: seq<ParserCell>, expected: seq<Entry>, mappings: seq<Entry>) {
    |cells| <= MAX_ARTIFACT_MAPPINGS && |expected| <= MAX_ARTIFACT_MAPPINGS && |mappings| <= MAX_ARTIFACT_MAPPINGS
  }

  datatype Outcome = Unmapped | Unresolved | Refused | Accepted(mappings: seq<Mapping>)

  /** What the check is shown of one build. */
  function BuiltEvidence(ctx: Context, registry: map<string, Identity>, cells: seq<ParserCell>, expected: seq<Entry>): Evidence {
    var fields := FinalFields(FieldsOf(ctx), registry);
    Evidence(ctx.conv, ctx.spec.sourceId, Document(ctx.spec.documentId, ctx.sourceHash, Obj(map["fields" := fields]), fields), cells, expected, registry)
  }

  /** The overlaid list is the full provenance of an honest build, and the verdict is the check's. */
  ghost predicate Judged(ctx: Context, registry: map<string, Identity>, cells: seq<ParserCell>, expected: seq<Entry>, overlaid: seq<Entry>,
                         accepted: bool)
  {
    var ev := BuiltEvidence(ctx, registry, cells, expected);
    Honest(ev, ctx) && IsFullProvenance(ev, ctx, overlaid) && (accepted <==> Admitted(ev, WrittenAll(overlaid)))
  }

  /** One source through the whole pipeline: table, both derivations, reference overlay, closure check. The
      check never refuses what the pipeline built unless it is too large. */
  method BuildAndClose(conv: Conventions, spec: Spec, csv: bool, sourceHash: string, items: seq<Item>, registry: map<string, Identity>)
    returns (outcome: Outcome, ctx: Option<Context>, cells: seq<ParserCell>, expected: seq<Entry>, overlaid: seq<Entry>)
    requires SpecOk(conv, spec)
    ensures ctx.Some? ==>
      && ctx.value == Context(conv, spec, sourceHash, ctx.value.table) && IsMapped(conv, spec, csv, sourceHash, items, ctx.value.table)
    ensures ctx.None? ==> forall t :: !IsMapped(conv, spec, csv, sourceHash, items, t)
    ensures outcome.Unmapped? <==> ctx.None? || !Mappable(ctx.value)
    ensures ctx.Some? && (outcome.Accepted? || outcome.Refused?) ==> Judged(ctx.value, registry, cells, expected, overlaid, outcome.Accepted?)
    ensures outcome.Refused? ==> !Fits(cells, expected, overlaid)
    ensures ctx.Some? && Mappable(ctx.value) ==> (outcome.Unresolved? <==> !Complete(FieldsOf(ctx.value), registry))
    ensures outcome.Accepted? ==> outcome.mappings == WrittenAll(Sort(overlaid, ByKey(EntryKey)))
  {
    hide FieldsOf, Mappable, Listed, Complete, Resolves, AllClean, Located, RowsOf, HasData, HeadersDistinct, HeadersFound, FinalFields, Closed, SpecOk,
      FinalReferences, AllParserCells, OverlaidEntries, EntryKey, EntryKindKey, IsFullProvenance, WithinLimits, Judged, IsMapped;
    cells, expected, overlaid := [], [], [];
    var fields, entries, plan;
    ctx, fields, entries, plan := DeriveTwice(conv, spec, csv, sourceHash, items);
    if ctx.None? || fields.None? {
      return Unmapped, ctx, cells, expected, overlaid;
    }
    expected := plan.value;
    cells := ParserCells(ctx.value);
    ReferencesComplete(ctx.value, registry);
    overlaid := entries;
    var json := FinalFields(fields.value, registry);
    if spec.documentType.InspectionRecord? {
      InspectionReferences(ctx.value);
      assert HasReferences(fields.value);
      var finalized := FinalizeReferences(fields.value, registry, entries);
      if finalized.None? {
        return Unresolved, ctx, cells, expected, overlaid;
      }
      json, overlaid := finalized.value.0, finalized.value.1;
    }
    outcome := CloseBuild(ctx.value, registry, json, cells, expected, entries, overlaid);
  }

  /** The check on one build's own outputs. */
  method CloseBuild(ctx: Context, registry: map<string, Identity>, json: Json, cells: seq<ParserCell>, expected: seq<Entry>,
                    ghost entries: seq<Entry>, overlaid: seq<Entry>) returns (outcome: Outcome)
    requires Sound(ctx) && Rows(ctx) != [] && Mappable(ctx) && Complete(FieldsOf(ctx), registry)
    requires json == FinalFields(FieldsOf(ctx), registry) && AllParserCells(ctx, cells)
    requires IsProvenance(ctx, expected) && IsProvenance(ctx, entries)
    requires ctx.spec.documentType.InspectionRecord? ==> HasReferences(FieldsOf(ctx)) && Resolves(FieldsOf(ctx), registry)
    requires multiset(overlaid) == multiset(entries
      + (if ctx.spec.documentType.InspectionRecord? then OverlaidEntries(registry, ToSop) + OverlaidEntries(registry, ToControlPlan) else []))
    ensures !outcome.Unmapped? && !outcome.Unresolved?
    ensures Judged(ctx, registry, cells, expected, overlaid, outcome.Accepted?)
    ensures Fits(cells, expected, overlaid) ==> outcome.Accepted?
    ensures outcome.Accepted? ==> outcome.mappings == WrittenAll(Sort(overlaid, ByKey(EntryKey)))
  {
    hide FieldsOf, Mappable, Sound, IsProvenance, FinalFields, Closed, Admitted, WrittenAll, AllParserCells, OverlaidEntries, EntryKey, MappingKey, IsFullProvenance;
    var ev := BuiltEvidence(ctx, registry, cells, expected);
    assert Honest(ev, ctx);
    OverlaidProvenance(ev, ctx, entries, overlaid);
    var closed := ValidateMappingClosure(ev, WrittenAll(overlaid));
    WrittenIff(ev, overlaid);
    WrittenSorted(overlaid);
    if Fits(cells, expected, overlaid) {
      HonestAccepted(ev, ctx, overlaid);
    }
    outcome := if closed.Some? then Accepted(closed.value) else Refused;
  }
}

/** The two derivations of one document's provenance, and why they always agree. */
module Agreement {
  import opened Json
  import opened Ordering
  import opened Provenance
  import opened EvidencePlanning
  import opened Tables
  import opened Roles
  import opened Feeds
  import opened Builder
  import opened PlanBuilder
  import CellReadings

  // ---------- What a document's provenance should be ----------

  /** The cells feeding one leaf, in coordinate order. */
  ghost predicate CellEntry(ctx: Context, e: Entry) {
    var group := Contributors(PlanFeeds(ctx, |Rows(ctx)|), e.target);
    group != [] && e == Finalized(GroupEntry(group))
  }

  /** One of the first `n` row locators. */
  ghost predicate LocatorOf(ctx: Context, e: Entry, n: nat)
    requires n <= |Rows(ctx)|
  {
    !ctx.spec.documentType.ProcessFlow? && exists i: nat :: i < n && e == LocatorEntry(ctx, i)
  }

  ghost predicate ExpectedTo(ctx: Context, e: Entry, n: nat)
    requires n <= |Rows(ctx)|
  {
    CellEntry(ctx, e) || LocatorOf(ctx, e, n)
  }

  ghost predicate Expected(ctx: Context, e: Entry) {
    ExpectedTo(ctx, e, |Rows(ctx)|)
  }

  ghost predicate Listed(ctx: Context, entries: seq<Entry>, n: nat)
    requires n <= |Rows(ctx)|
  {
    DistinctTargets(entries) && forall e :: e in entries <==> ExpectedTo(ctx, e, n)
  }

  /** Exactly the expected entries, one per target. */
  ghost predicate IsProvenance(ctx: Context, entries: seq<Entry>) {
    Listed(ctx, entries, |Rows(ctx)|)
  }

  // ---------- First derivation: the document ----------

  /** `_build_fields`. */
  method BuildFields(ctx: Context, prov: ProvenanceList) returns (r: Option<Fields>)
    requires Sound(ctx) && Rows(ctx) != []
    requires prov.Valid() && prov.entries == []
    modifies prov
    ensures prov.Valid()
    ensures r.Some? <==> Mappable(ctx)
    ensures r.Some? ==> Recorded(prov, BuilderFeeds(ctx)) && r.value == FieldsOf(ctx)
  {
    hide Sound, Mappable, Groups, RowFeeds, RefFeeds, StepsOf, FieldsOf;
    match ctx.spec.documentType
    case ProcessFlow => r := BuildProcessFlow(ctx, prov);
    case Pfmea => r := BuildPfmea(ctx, prov);
    case InspectionRecord => r := BuildInspectionRecord(ctx, prov);
    case _ => r := BuildCharacteristicDocument(ctx, prov);
  }

  /** The order in which the builder records the cells: an inspection's references come last. */
  ghost function BuilderFeeds(ctx: Context): seq<Feed> {
    if ctx.spec.documentType.InspectionRecord? then RowFeeds(ctx, |Rows(ctx)|) + RefFeeds(ctx, |Rows(ctx)|)
    else RowFeeds(ctx, |Rows(ctx)|)
  }

  lemma BuilderGroups(ctx: Context, t: Path)
    requires Sound(ctx)
    ensures Contributors(BuilderFeeds(ctx), t) == Contributors(PlanFeeds(ctx, |Rows(ctx)|), t)
  {
    hide Sound, RowFeeds, RefFeeds, PlanFeeds, Contributors;
    SameGroups(ctx, |Rows(ctx)|, t);
    if ctx.spec.documentType.InspectionRecord? {
      ContributorsConcat(RowFeeds(ctx, |Rows(ctx)|), RefFeeds(ctx, |Rows(ctx)|), t);
    } else {
      NoReferenceFeeds(ctx, |Rows(ctx)|, t);
    }
  }

  lemma FinalizedTarget(e: Entry)
    ensures Finalized(e).target == e.target
  {}

  lemma InGroups(entries: seq<Entry>, feeds: seq<Feed>, e: Entry)
    requires Groups(entries, feeds)
    ensures e in entries <==> Contributors(feeds, e.target) != [] && e == GroupEntry(Contributors(feeds, e.target))
  {
    assert GroupAt(entries, feeds, e.target);
    if e in entries {
      var k :| 0 <= k < |entries| && entries[k] == e;
      IndexOfMember(entries, k);
    }
  }

  /** Finalizing the recorded list leaves the expected cell entries. */
  lemma FinalizedList(ctx: Context, before: seq<Entry>, after: seq<Entry>)
    requires Sound(ctx) && Groups(before, BuilderFeeds(ctx))
    requires |after| == |before| && forall k :: 0 <= k < |after| ==> after[k] == Finalized(before[k])
    ensures Listed(ctx, after, 0)
  {
    hide Sound, Groups, BuilderFeeds, PlanFeeds, GroupEntry, Finalized;
    forall k | 0 <= k < |after| ensures after[k].target == before[k].target {
      FinalizedTarget(before[k]);
    }
    GroupsDistinct(before, BuilderFeeds(ctx));
    forall e ensures e in after <==> CellEntry(ctx, e) {
      BuilderGroups(ctx, e.target);
      var group := Contributors(BuilderFeeds(ctx), e.target);
      if e in after {
        var k :| 0 <= k < |after| && after[k] == e;
        InGroups(before, BuilderFeeds(ctx), before[k]);
      }
      if group != [] {
        GroupTarget(BuilderFeeds(ctx), e.target);
        InGroups(before, BuilderFeeds(ctx), GroupEntry(group));
        var k :| 0 <= k < |before| && before[k] == GroupEntry(group);
        assert after[k] == Finalized(GroupEntry(group));
      }
    }
  }

  lemma GroupsDistinct(entries: seq<Entry>, feeds: seq<Feed>)
    requires Groups(entries, feeds)
    ensures DistinctTargets(entries)
  {}

  /** The row whose anchor cell a locator copies. */
  function AnchorColumn(ctx: Context): Canonical {
    if ctx.spec.documentType.Pfmea? then FailureModeId else CharacteristicId
  }

  function AnchorRole(ctx: Context, i: nat): Role {
    if ctx.spec.documentType.Pfmea? then RiskRole(i, FailureModeId) else CharRole(i, CharacteristicId)
  }

  /** The anchor leaf of row `i` is fed by that row's anchor cell alone. */
  lemma AnchorGroup(ctx: Context, i: nat)
    requires Sound(ctx) && i < |Rows(ctx)| && !ctx.spec.documentType.ProcessFlow?
    ensures Contributors(PlanFeeds(ctx, |Rows(ctx)|), PathOf(AnchorRole(ctx, i)))
      == [FeedAt(ctx, Rows(ctx)[i], (AnchorRole(ctx, i), AnchorColumn(ctx)))]
  {
    AnchorPosition(ctx, i);
    hide Sound, RowPairs, PlanFeeds, Contributors, PathOf, FeedAt;
    var k :| 0 < k < |RowPairs(ctx, i)| && RowPairs(ctx, i)[k] == (AnchorRole(ctx, i), AnchorColumn(ctx));
    OwnLeafGroup(ctx, |Rows(ctx)|, i, k);
  }

  lemma AnchorPosition(ctx: Context, i: nat)
    requires i < |Rows(ctx)| && !ctx.spec.documentType.ProcessFlow?
    ensures exists k :: 0 < k < |RowPairs(ctx, i)| && RowPairs(ctx, i)[k] == (AnchorRole(ctx, i), AnchorColumn(ctx))
  {
    hide StepIndex;
    var pairs := RowPairs(ctx, i);
    assert pairs[1] == BodyPairs(ctx, i)[0];
  }

  /** The anchor entry of row `i` is in the finalized list as a single cell. */
  lemma AnchorListed(ctx: Context, entries: seq<Entry>, i: nat, n: nat)
    requires Sound(ctx) && i < |Rows(ctx)| && n <= |Rows(ctx)| && !ctx.spec.documentType.ProcessFlow?
    requires Listed(ctx, entries, n)
    ensures DirectEntry(FeedAt(ctx, Rows(ctx)[i], (AnchorRole(ctx, i), AnchorColumn(ctx)))) in entries
  {
    hide Sound, PlanFeeds, Contributors, PathOf, LocatorEntry;
    AnchorGroup(ctx, i);
    var e := DirectEntry(FeedAt(ctx, Rows(ctx)[i], (AnchorRole(ctx, i), AnchorColumn(ctx))));
    assert CellEntry(ctx, e);
  }

  /** The locator column of the finished fields, row by row. */
  function LocatorValues(fields: Fields): seq<string> {
    match fields
    case StepFields(_) => []
    case RiskFields(_, risks) => seq(|risks|, i requires 0 <= i < |risks| => risks[i].locator)
    case CharacteristicFields(_, cs, _) => seq(|cs|, i requires 0 <= i < |cs| => cs[i].locator)
  }

  lemma LocatorValuesAre(ctx: Context)
    ensures ctx.spec.documentType.ProcessFlow? ==> LocatorValues(FieldsOf(ctx)) == []
    ensures !ctx.spec.documentType.ProcessFlow? ==>
      && |LocatorValues(FieldsOf(ctx))| == |Rows(ctx)|
      && forall i :: 0 <= i < |Rows(ctx)| ==> LocatorValues(FieldsOf(ctx))[i] == CellAt(Rows(ctx)[i], AnchorColumn(ctx)).locator
  {
    hide StepsOf, RiskOf, CharacteristicOf;
    forall i | 0 <= i < |Rows(ctx)|
      ensures RiskOf(ctx, Rows(ctx)[i]).locator == CellAt(Rows(ctx)[i], FailureModeId).locator
      ensures CharacteristicOf(ctx, Rows(ctx)[i]).locator == CellAt(Rows(ctx)[i], CharacteristicId).locator
    {
      LocatorParts(ctx, Rows(ctx)[i]);
    }
  }

  lemma LocatorParts(ctx: Context, row: MappedRow)
    ensures RiskOf(ctx, row).locator == CellAt(row, FailureModeId).locator
    ensures CharacteristicOf(ctx, row).locator == CellAt(row, CharacteristicId).locator
  {}

  /** The dictionary `_record_derived_locators` makes of the list before it appends to it. */
  method IndexByTarget(entries: seq<Entry>) returns (byTarget: map<Path, Entry>)
    requires DistinctTargets(entries)
    ensures forall e :: e in entries <==> e.target in byTarget && byTarget[e.target] == e
  {
    byTarget := map[];
    var k := 0;
    while k < |entries|
      invariant 0 <= k <= |entries|
      invariant forall j :: 0 <= j < k ==> entries[j].target in byTarget && byTarget[entries[j].target] == entries[j]
      invariant forall t :: t in byTarget ==> byTarget[t] in entries && byTarget[t].target == t
    {
      byTarget := byTarget[entries[k].target := entries[k]];
      k := k + 1;
    }
  }

  /** No entry so far targets row `n`'s locator leaf. */
  lemma LocatorFresh(ctx: Context, entries: seq<Entry>, n: nat)
    requires Sound(ctx) && Mappable(ctx) && n < |Rows(ctx)| && !ctx.spec.documentType.ProcessFlow?
    requires Listed(ctx, entries, n)
    ensures forall e :: e in entries ==> e.target != LocatorEntry(ctx, n).target
  {
    hide Sound, PlanFeeds, Contributors, PathOf, LocatorEntry, Mappable, GroupEntry, Finalized;
    LocatorTarget(ctx, n);
    FedByRows(ctx);
    NoLocatorFed(ctx, PlanFeeds(ctx, |Rows(ctx)|), |Rows(ctx)|, PathOf(LocatorRole(ctx, n)), LocatorRole(ctx, n));
    forall e | e in entries ensures e.target != PathOf(LocatorRole(ctx, n)) {
      assert ExpectedTo(ctx, e, n);
      if LocatorOf(ctx, e, n) {
        var i: nat :| i < n && e == LocatorEntry(ctx, i);
        LocatorTarget(ctx, i);
        LocatorsDiffer(ctx, i, n);
      }
    }
  }

  /** Appending it lists one more row's locator. */
  lemma LocatorAppended(ctx: Context, entries: seq<Entry>, n: nat)
    requires n < |Rows(ctx)| && !ctx.spec.documentType.ProcessFlow?
    requires Listed(ctx, entries, n) && forall e :: e in entries ==> e.target != LocatorEntry(ctx, n).target
    ensures IndexOf(entries, LocatorEntry(ctx, n).target).None?
    ensures Listed(ctx, entries + [LocatorEntry(ctx, n)], n + 1)
  {
    hide CellEntry, LocatorEntry;
    forall e ensures e in entries + [LocatorEntry(ctx, n)] <==> ExpectedTo(ctx, e, n + 1) {
      LocatorNext(ctx, e, n);
    }
  }

  lemma LocatorNext(ctx: Context, e: Entry, n: nat)
    requires n < |Rows(ctx)| && !ctx.spec.documentType.ProcessFlow?
    ensures LocatorOf(ctx, e, n + 1) <==> LocatorOf(ctx, e, n) || e == LocatorEntry(ctx, n)
  {
    hide LocatorEntry;
  }

  lemma FedByRows(ctx: Context)
    requires Sound(ctx) && Mappable(ctx)
    ensures FromRows(ctx, PlanFeeds(ctx, |Rows(ctx)|), |Rows(ctx)|)
  {
    PrefixReadable(ctx, |Rows(ctx)|);
    FedFromRows(ctx, |Rows(ctx)|);
  }

  /** The entry the loop body writes is row `n`'s locator. */
  lemma WritesLocator(ctx: Context, n: nat, anchor: Entry)
    requires n < |Rows(ctx)| && !ctx.spec.documentType.ProcessFlow?
    requires anchor == DirectEntry(FeedAt(ctx, Rows(ctx)[n], (AnchorRole(ctx, n), AnchorColumn(ctx))))
    ensures LocatorEntry(ctx, n) == DerivedLocator(PathOf(LocatorRole(ctx, n)), Str(CellAt(Rows(ctx)[n], AnchorColumn(ctx)).locator),
        anchor.source, PathOf(AnchorRole(ctx, n)), LOCATOR_CONTRACT)
    ensures anchor.target == PathOf(AnchorRole(ctx, n))
  {}

  /** The dictionary finds row `n`'s anchor. */
  lemma AnchorFound(ctx: Context, n: nat, finalized: seq<Entry>, byTarget: map<Path, Entry>)
    requires Sound(ctx) && n < |Rows(ctx)| && !ctx.spec.documentType.ProcessFlow?
    requires Listed(ctx, finalized, 0)
    requires forall e :: e in finalized <==> e.target in byTarget && byTarget[e.target] == e
    ensures PathOf(AnchorRole(ctx, n)) in byTarget
    ensures byTarget[PathOf(AnchorRole(ctx, n))].Direct?
    ensures LocatorEntry(ctx, n) == DerivedLocator(PathOf(LocatorRole(ctx, n)), Str(CellAt(Rows(ctx)[n], AnchorColumn(ctx)).locator),
        byTarget[PathOf(AnchorRole(ctx, n))].source, PathOf(AnchorRole(ctx, n)), LOCATOR_CONTRACT)
  {
    hide Sound, Listed, PathOf, LocatorEntry, LocatorRole, AnchorRole, FeedAt, CellAt;
    AnchorListed(ctx, finalized, n, 0);
    WritesLocator(ctx, n, DirectEntry(FeedAt(ctx, Rows(ctx)[n], (AnchorRole(ctx, n), AnchorColumn(ctx)))));
  }

  /** The loop body: row `n`'s locator leaf. */
  method RecordLocator(ctx: Context, n: nat, locator: string, prov: ProvenanceList, byTarget: map<Path, Entry>,
                       ghost finalized: seq<Entry>)
    returns (ok: bool)
    requires Sound(ctx) && Mappable(ctx) && n < |Rows(ctx)| && !ctx.spec.documentType.ProcessFlow?
    requires locator == CellAt(Rows(ctx)[n], AnchorColumn(ctx)).locator
    requires Listed(ctx, finalized, 0)
    requires forall e :: e in finalized <==> e.target in byTarget && byTarget[e.target] == e
    requires prov.Valid() && Listed(ctx, prov.entries, n)
    modifies prov
    ensures prov.Valid()
    ensures ok && Listed(ctx, prov.entries, n + 1)
  {
    hide Sound, Mappable, Listed, PathOf, LocatorEntry, LocatorRole, AnchorRole, CellAt;
    AnchorFound(ctx, n, finalized, byTarget);
    LocatorFresh(ctx, prov.entries, n);
    LocatorAppended(ctx, prov.entries, n);
    var preferred := PathOf(AnchorRole(ctx, n));
    if preferred !in byTarget {
      return false;
    }
    ok := prov.Append(DerivedLocator(PathOf(LocatorRole(ctx, n)), Str(locator), byTarget[preferred].source, preferred, LOCATOR_CONTRACT));
  }

  /** `_record_derived_locators`: no anchor is missing and no locator is refused. */
  method RecordDerivedLocators(ctx: Context, fields: Fields, prov: ProvenanceList) returns (ok: bool)
    requires Sound(ctx) && Mappable(ctx) && fields == FieldsOf(ctx)
    requires prov.Valid() && Listed(ctx, prov.entries, 0)
    modifies prov
    ensures ok && IsProvenance(ctx, prov.entries)
  {
    hide Sound, Mappable, FieldsOf, LocatorValues, ExpectedTo, CellAt;
    LocatorValuesAre(ctx);
    var locators := LocatorValues(fields);
    var byTarget := IndexByTarget(prov.entries);
    ghost var finalized := prov.entries;
    if ctx.spec.documentType.ProcessFlow? {
      NoLocators(ctx, prov.entries);
    }
    hide Listed;
    var i := 0;
    while i < |locators|
      invariant 0 <= i <= |locators|
      invariant locators != [] ==> !ctx.spec.documentType.ProcessFlow? && |locators| == |Rows(ctx)|
      invariant prov.Valid() && Listed(ctx, prov.entries, if locators == [] then |Rows(ctx)| else i)
    {
      ok := RecordLocator(ctx, i, locators[i], prov, byTarget, finalized);
      i := i + 1;
    }
    return true;
  }

  lemma NoLocators(ctx: Context, entries: seq<Entry>)
    requires Listed(ctx, entries, 0) && ctx.spec.documentType.ProcessFlow?
    ensures IsProvenance(ctx, entries)
  {}

  /** `_build_document_from_mapped_table`: fields and provenance. */
  method BuildDocument(ctx: Context) returns (fields: Option<Fields>, entries: seq<Entry>)
    requires Sound(ctx) && Rows(ctx) != []
    ensures fields.Some? <==> Mappable(ctx)
    ensures fields.Some? <==> CellReadings.TableSpeaks(ctx.conv, ctx.spec, ctx.table.rows)
    ensures fields.Some? ==> fields.value == FieldsOf(ctx) && IsProvenance(ctx, entries)
    ensures fields.Some? ==> CellReadings.FieldsSaid(ctx.conv, ctx.spec, ctx.table.rows, fields.value)
  {
    hide Sound, Mappable, FieldsOf, Groups, BuilderFeeds, Listed, CellReadings.TableSpeaks, CellReadings.FieldsSaid;
    CellReadings.MappableIff(ctx);
    var prov := new ProvenanceList();
    fields := BuildFields(ctx, prov);
    if fields.None? {
      return None, [];
    }
    ghost var before := prov.entries;
    prov.FinalizeAggregates();
    FinalizedList(ctx, before, prov.entries);
    CellReadings.FieldsAreSaid(ctx);
    var ok := RecordDerivedLocators(ctx, fields.value, prov);
    entries := prov.entries;
  }

  // ---------- Second derivation: the evidence plan ----------

  /** `_build_artifact_evidence`. */
  method BuildEvidence(ctx: Context) returns (expected: Option<seq<Entry>>)
    requires Sound(ctx)
    ensures expected.Some? <==> Mappable(ctx)
    ensures expected.Some? <==> CellReadings.TableSpeaks(ctx.conv, ctx.spec, ctx.table.rows)
    ensures expected.Some? ==> IsProvenance(ctx, expected.value) && Sorted(expected.value, ByKey(EntryKey))
  {
    hide Sound, Mappable, PlanGroups, Locators, PlanFeeds, CellReadings.TableSpeaks;
    CellReadings.MappableIff(ctx);
    var plan := new EvidencePlan();
    var ok;
    match ctx.spec.documentType {
      case ProcessFlow => ok := PlanProcessFlow(ctx, plan);
      case Pfmea => ok := PlanPfmea(ctx, plan);
      case _ => ok := PlanCharacteristics(ctx, plan);
    }
    if !ok {
      return None;
    }
    PlanMeaning(ctx, plan.contributors);
    var listed := plan.ExpectedMappings();
    return Some(listed);
  }

  /** What the filled dictionaries list. */
  lemma PlanMeaning(ctx: Context, contributors: map<Path, Contribution>)
    requires Sound(ctx) && Mappable(ctx) && PlanGroups(contributors, PlanFeeds(ctx, |Rows(ctx)|))
    ensures var derived := Locators(ctx, |Rows(ctx)|);
      && (forall t :: t in derived ==> t !in contributors)
      && (forall e :: Expected(ctx, e) <==>
            || (e.target in contributors && e == PlannedEntry(e.target, contributors[e.target]))
            || (e.target in derived && e == derived[e.target]))
  {
    var n := |Rows(ctx)|;
    var derived := Locators(ctx, n);
    FedByRows(ctx);
    if !ctx.spec.documentType.ProcessFlow? {
      LocatorKeys(ctx, n);
      forall i: nat | i < n ensures PathOf(LocatorRole(ctx, i)) !in contributors {
        NoLocatorFed(ctx, PlanFeeds(ctx, n), n, PathOf(LocatorRole(ctx, i)), LocatorRole(ctx, i));
        assert PlannedAt(contributors, PlanFeeds(ctx, n), PathOf(LocatorRole(ctx, i)));
      }
    }
    hide Sound, Mappable, PlanFeeds, Contributors, PathOf, LocatorRole, LocatorEntry, PlannedEntry, GroupEntry, Finalized;
    forall e
      ensures CellEntry(ctx, e) <==> e.target in contributors && e == PlannedEntry(e.target, contributors[e.target])
    {
      PlannedCell(ctx, contributors, e);
    }
    forall e ensures LocatorOf(ctx, e, n) <==> e.target in derived && e == derived[e.target] {
      PlannedLocator(ctx, e);
    }
  }

  lemma PlannedCell(ctx: Context, contributors: map<Path, Contribution>, e: Entry)
    requires PlanGroups(contributors, PlanFeeds(ctx, |Rows(ctx)|))
    ensures CellEntry(ctx, e) <==> e.target in contributors && e == PlannedEntry(e.target, contributors[e.target])
  {
    hide PlanFeeds, PlannedEntry, GroupEntry, Finalized, Contributors;
    var feeds := PlanFeeds(ctx, |Rows(ctx)|);
    var group := Contributors(feeds, e.target);
    assert PlannedAt(contributors, feeds, e.target);
    if group != [] {
      ContributorsMembers(feeds, e.target);
      assert group[0] in group;
      PlannedIsFinalizedGroup(e.target, group);
    }
  }

  lemma PlannedLocator(ctx: Context, e: Entry)
    ensures var derived := Locators(ctx, |Rows(ctx)|);
      LocatorOf(ctx, e, |Rows(ctx)|) <==> e.target in derived && e == derived[e.target]
  {
    var n := |Rows(ctx)|;
    if !ctx.spec.documentType.ProcessFlow? {
      LocatorKeys(ctx, n);
      hide PathOf, LocatorRole, LocatorEntry;
      if LocatorOf(ctx, e, n) {
        var i: nat :| i < n && e == LocatorEntry(ctx, i);
        LocatorTarget(ctx, i);
      }
      if e.target in Locators(ctx, n) && e == Locators(ctx, n)[e.target] {
        var i: nat :| i < n && e.target == PathOf(LocatorRole(ctx, i));
        assert e == LocatorEntry(ctx, i);
      }
    }
  }

  // ---------- Agreement ----------

  /** Every expected entry targets one of the document's leaves. */
  lemma TargetsAreLeaves(ctx: Context, e: Entry) returns (role: Role)
    requires Sound(ctx) && Mappable(ctx) && Expected(ctx, e)
    ensures e.target == PathOf(role)
  {
    if CellEntry(ctx, e) {
      role := FedLeaf(ctx, e.target);
    } else {
      var i: nat :| i < |Rows(ctx)| && e == LocatorEntry(ctx, i);
      LocatorTarget(ctx, i);
      role := LocatorRole(ctx, i);
    }
  }

  lemma FedLeaf(ctx: Context, t: Path) returns (role: Role)
    requires Sound(ctx) && Mappable(ctx) && Contributors(PlanFeeds(ctx, |Rows(ctx)|), t) != []
    ensures t == PathOf(role)
  {
    FedByRows(ctx);
    hide Sound, Mappable, PlanFeeds, PathOf, Contributors, OfRow;
    var feeds := PlanFeeds(ctx, |Rows(ctx)|);
    ContributorsMembers(feeds, t);
    var f := Contributors(feeds, t)[0];
    assert f in Contributors(feeds, t);
    assert FromSomeRow(ctx, f, |Rows(ctx)|);
    var i: nat, p: Pair :| i < |Rows(ctx)| && TakenFrom(ctx, f, i, p);
    role := p.0;
  }

  lemma LeafText(a: Role, b: Role)
    ensures TargetText(PathOf(a)) == TargetText(PathOf(b)) ==> PathOf(a) == PathOf(b)
  {
    hide PathOf;
    PathWritable(a);
    PathWritable(b);
    PathRoundTrip(PathOf(a));
    PathRoundTrip(PathOf(b));
  }

  lemma ListedExpected(ctx: Context, entries: seq<Entry>, e: Entry)
    requires IsProvenance(ctx, entries)
    ensures e in entries <==> Expected(ctx, e)
  {}

  /** The spelled-out target tells the entries of a provenance list apart. */
  lemma TargetsDistinguish(ctx: Context, entries: seq<Entry>)
    requires Sound(ctx) && Mappable(ctx) && IsProvenance(ctx, entries)
    ensures Distinguishes(entries, ByKey(EntryKey))
  {
    hide Sound, Mappable, Expected, ExpectedTo, TargetText, KeyLe;
    forall a, b | a in entries && b in entries && ByKey(EntryKey)(a, b) && ByKey(EntryKey)(b, a) ensures a == b {
      ListedExpected(ctx, entries, a);
      ListedExpected(ctx, entries, b);
      var x := TargetsAreLeaves(ctx, a);
      var y := TargetsAreLeaves(ctx, b);
      KeyTotal(EntryKey(a), EntryKey(b));
      assert EntryKey(a)[0] == EntryKey(b)[0];
      LeafText(x, y);
    }
  }

  lemma {:induction false} CountOfDistinct(entries: seq<Entry>, e: Entry)
    requires DistinctTargets(entries)
    ensures multiset(entries)[e] == if e in entries then 1 else 0
  {
    if entries != [] {
      var n := |entries| - 1;
      CountOfDistinct(entries[..n], e);
      assert entries == entries[..n] + [entries[n]];
    }
  }

  lemma SameMultiset(a: seq<Entry>, b: seq<Entry>)
    requires DistinctTargets(a) && DistinctTargets(b) && forall e :: e in a <==> e in b
    ensures multiset(a) == multiset(b)
  {
    forall e ensures multiset(a)[e] == multiset(b)[e] {
      CountOfDistinct(a, e);
      CountOfDistinct(b, e);
    }
  }

  /** Sorted by target, the document's provenance is the plan's list, entry for entry. */
  lemma ListsAgree(ctx: Context, entries: seq<Entry>, expected: seq<Entry>)
    requires Sound(ctx) && Mappable(ctx) && IsProvenance(ctx, entries) && IsProvenance(ctx, expected)
    requires Sorted(expected, ByKey(EntryKey))
    ensures Sort(entries, ByKey(EntryKey)) == expected
  {
    TargetsDistinguish(ctx, entries);
    hide Sound, Mappable, ExpectedTo, EntryKey, Distinguishes;
    SameMultiset(entries, expected);
    SortForgetsOrder(entries, expected, ByKey(EntryKey));
    SortFixesSorted(expected, ByKey(EntryKey));
  }

  /** One source, both derivations, from the raw cells on: the field builder fails exactly when the
      evidence plan fails, and otherwise the sorted provenance is the expected list. */
  method DeriveTwice(conv: Conventions, spec: Spec, csv: bool, sourceHash: string, items: seq<Item>)
    returns (ctx: Option<Context>, fields: Option<Fields>, entries: seq<Entry>, expected: Option<seq<Entry>>)
    requires SpecOk(conv, spec)
    ensures ctx.Some? ==>
      && ctx.value == Context(conv, spec, sourceHash, ctx.value.table) && IsMapped(conv, spec, csv, sourceHash, items, ctx.value.table)
      && Sound(ctx.value) && Rows(ctx.value) != []
    ensures ctx.None? ==> forall t :: !IsMapped(conv, spec, csv, sourceHash, items, t)
    ensures ctx.Some? ==> (fields.Some? <==> expected.Some?) && (fields.Some? <==> Mappable(ctx.value))
    ensures ctx.Some? ==> (fields.Some? <==> CellReadings.TableSpeaks(conv, spec, ctx.value.table.rows))
    ensures ctx.None? ==> fields.None? && expected.None?
    ensures fields.Some? && ctx.Some? ==>
      && fields.value == FieldsOf(ctx.value) && CellReadings.FieldsSaid(conv, spec, ctx.value.table.rows, fields.value)
      && IsProvenance(ctx.value, entries) && IsProvenance(ctx.value, expected.value)
      && Sort(entries, ByKey(EntryKey)) == expected.value
  {
    hide FieldsOf, Listed, Mappable, CellReadings.TableSpeaks, CellReadings.FieldsSaid, RowsOf, AllClean, HeadersDistinct, HeadersFound, Located, HasData;
    assert forall i, j :: 0 <= i < j < |spec.columns| ==> spec.columns[i].0 != spec.columns[j].0;
    var table, chosen := MapTable(conv, spec, csv, sourceHash, items);
    if table.None? {
      return None, None, [], None;
    }
    MappedTableWellFormed(conv, csv, sourceHash, spec, items, chosen, table.value);
    hide WellFormed, SpecOk;
    ctx := Some(Context(conv, spec, sourceHash, table.value));
    assert Sound(ctx.value);
    fields, entries := BuildDocument(ctx.value);
    expected := BuildEvidence(ctx.value);
    if fields.Some? {
      ListsAgree(ctx.value, entries, expected.value);
    }
  }
}

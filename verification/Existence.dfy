/** Every table the builder takes has its provenance, its plan and its parser cells; and the closure check accepts
    them all unless the table is very long. */
module Existence {
  import opened Json
  import opened Ordering
  import opened Provenance
  import opened Tables
  import opened Roles
  import opened Feeds
  import opened Builder
  import opened PlanBuilder
  import opened Agreement
  import opened Documents
  import opened Closure
  import opened HonestClosure
  import opened ClosureTheorem
  import opened ClosureExact

  // ---------- Provenance ----------

  /** Any run of contributions can be grouped, in at most as many entries. */
  lemma {:induction false} GroupsExist(feeds: seq<Feed>) returns (entries: seq<Entry>)
    ensures Groups(entries, feeds) && |entries| <= |feeds|
    decreases |feeds|
  {
    if feeds == [] {
      entries := [];
      assert Groups([], []);
    } else {
      var n := |feeds| - 1;
      var before := GroupsExist(feeds[..n]);
      var f := feeds[n];
      assert feeds[..n] + [f] == feeds;
      hide Groups;
      match IndexOf(before, f.target)
      case None =>
        AppendNewRegroups(before, feeds[..n], f);
        entries := before + [DirectEntry(f)];
      case Some(k) =>
        CellEntriesOnly(before, feeds[..n], f.target, k);
        AppendMergeRegroups(before, feeds[..n], f, k);
        entries := before[k := Merged(before[k], DirectEntry(f))];
    }
  }

  lemma CellEntriesOnly(entries: seq<Entry>, feeds: seq<Feed>, t: Path, k: nat)
    requires Groups(entries, feeds) && IndexOf(entries, t) == Some(k)
    ensures entries[k].Direct? || entries[k].Aggregate?
  {
    assert GroupAt(entries, feeds, t);
  }

  lemma {:induction false} LocatorsListed(ctx: Context, entries: seq<Entry>, n: nat) returns (listed: seq<Entry>)
    requires Sound(ctx) && Mappable(ctx) && n <= |Rows(ctx)| && !ctx.spec.documentType.ProcessFlow? && Listed(ctx, entries, n)
    ensures IsProvenance(ctx, listed) && |listed| == |entries| + |Rows(ctx)| - n
    decreases |Rows(ctx)| - n
  {
    listed := entries;
    hide Sound, Mappable, Listed, LocatorEntry;
    if n < |Rows(ctx)| {
      LocatorFresh(ctx, entries, n);
      LocatorAppended(ctx, entries, n);
      listed := LocatorsListed(ctx, entries + [LocatorEntry(ctx, n)], n + 1);
    }
  }

  /** A mappable table has a provenance list. */
  lemma ProvenanceExists(ctx: Context) returns (entries: seq<Entry>)
    requires Sound(ctx) && Mappable(ctx)
    ensures IsProvenance(ctx, entries) && |entries| <= |BuilderFeeds(ctx)| + |Rows(ctx)|
  {
    var before := GroupsExist(BuilderFeeds(ctx));
    var after := seq(|before|, k requires 0 <= k < |before| => Finalized(before[k]));
    hide Sound, Mappable, Groups, BuilderFeeds, Finalized, Listed;
    FinalizedList(ctx, before, after);
    if ctx.spec.documentType.ProcessFlow? {
      NoLocators(ctx, after);
      entries := after;
    } else {
      entries := LocatorsListed(ctx, after, 0);
    }
  }

  // ---------- Parser cells ----------

  lemma {:induction false} RowCellsExist(ctx: Context, i: nat, k: nat) returns (cells: seq<ParserCell>)
    requires Sound(ctx) && i < |Rows(ctx)| && k <= |ctx.spec.columns|
    ensures forall cell :: cell in cells <==> cell.canonicalName in SeenColumns(ctx, k) && OfRowCells(ctx, Rows(ctx)[i], cell)
    ensures forall a, b :: 0 <= a < b < |cells| ==> cells[a] != cells[b]
    ensures |cells| <= k
    decreases k
  {
    hide *;
    var row := Rows(ctx)[i];
    if k == 0 {
      cells := [];
      NothingSeen(ctx);
      NoCellYet(ctx, row);
    } else {
      cells := RowCellsExist(ctx, i, k - 1);
      var c := ctx.spec.columns[k - 1].0;
      SeenNext(ctx, k - 1);
      OneMoreCell(ctx, row, SeenColumns(ctx, k - 1), cells, c);
      if c in row.cells {
        cells := cells + [CellOfRow(ctx, row, c)];
      }
    }
  }

  lemma {:induction false} CellsListed(ctx: Context, n: nat) returns (cells: seq<ParserCell>)
    requires Sound(ctx) && n <= |Rows(ctx)|
    ensures forall cell :: cell in cells <==> IsParserCell(ctx, cell, n)
    ensures forall a, b :: 0 <= a < b < |cells| ==> cells[a] != cells[b]
    ensures |cells| <= n * |ctx.spec.columns|
    decreases n
  {
    hide *;
    NoRowNoCell(ctx);
    if n == 0 {
      cells := [];
    } else {
      var before := CellsListed(ctx, n - 1);
      var own := RowCellsExist(ctx, n - 1, |ctx.spec.columns|);
      forall cell ensures cell in own <==> OfRowCells(ctx, Rows(ctx)[n - 1], cell) {
        CellColumn(ctx, n - 1, cell);
      }
      EarlierCellsDiffer(ctx, n - 1);
      NextRowCells(ctx, n - 1, own);
      DistinctTogether(before, own);
      cells := before + own;
      OneTimeMore(n, |ctx.spec.columns|);
    }
  }

  lemma NoRowNoCell(ctx: Context)
    ensures forall cell :: !IsParserCell(ctx, cell, 0)
  {}

  lemma OneTimeMore(n: nat, c: nat)
    requires n > 0
    ensures n * c == (n - 1) * c + c
  {}

  lemma CellsExist(ctx: Context) returns (cells: seq<ParserCell>)
    requires Sound(ctx)
    ensures AllParserCells(ctx, cells) && |cells| <= |Rows(ctx)| * |ctx.spec.columns|
  {
    cells := CellsListed(ctx, |Rows(ctx)|);
  }

  // ---------- Sizes ----------

  lemma RowPairsFew(ctx: Context, i: nat)
    requires i < |Rows(ctx)|
    ensures |RowPairs(ctx, i)| <= if ctx.spec.documentType.InspectionRecord? then 7 else 11
  {
    hide StepIndex;
  }

  lemma {:induction false} RowFeedsFew(ctx: Context, n: nat)
    requires n <= |Rows(ctx)|
    ensures |RowFeeds(ctx, n)| <= n * if ctx.spec.documentType.InspectionRecord? then 7 else 11
    decreases n
  {
    hide RowPairs;
    if n > 0 {
      RowFeedsFew(ctx, n - 1);
      RowPairsFew(ctx, n - 1);
    }
  }

  lemma {:induction false} RefFeedsFew(ctx: Context, n: nat)
    requires n <= |Rows(ctx)|
    ensures |RefFeeds(ctx, n)| <= n * 4
    decreases n
  {
    if n > 0 {
      RefFeedsFew(ctx, n - 1);
      assert |RefPairs(ctx)| <= 4;
    }
  }

  lemma FeedsFew(ctx: Context)
    ensures |BuilderFeeds(ctx)| <= |Rows(ctx)| * 11
  {
    RowFeedsFew(ctx, |Rows(ctx)|);
    RefFeedsFew(ctx, |Rows(ctx)|);
    hide RowFeeds, RefFeeds;
  }

  lemma SubsetFew(a: set<Canonical>, b: set<Canonical>)
    requires a <= b
    ensures |a| <= |b|
  {
    assert b == a + (b - a);
  }

  lemma {:induction false} ColumnsCounted(spec: Spec, k: nat)
    requires k <= |spec.columns| && forall i, j :: 0 <= i < j < |spec.columns| ==> spec.columns[i].0 != spec.columns[j].0
    ensures |FirstColumns(spec, k)| == k
    decreases k
  {
    NoColumns(spec);
    if k > 0 {
      ColumnsCounted(spec, k - 1);
      assert FirstColumns(spec, k) == FirstColumns(spec, k - 1) + {spec.columns[k - 1].0};
    }
  }

  ghost function FirstColumns(spec: Spec, k: nat): set<Canonical>
    requires k <= |spec.columns|
  {
    set j: nat | j < k :: spec.columns[j].0
  }

  lemma NoColumns(spec: Spec)
    ensures FirstColumns(spec, 0) == {}
  {}

  lemma RequiredFew(t: DocumentType)
    ensures |RequiredColumns(t) + OptionalColumns(t)| <= 10
  {
    SumFew(RequiredColumns(t), OptionalColumns(t));
    RequiredSize(t);
    hide RequiredColumns;
  }

  lemma RequiredSize(t: DocumentType)
    ensures |RequiredColumns(t)| <= 10 && (t.Pfmea? ==> |RequiredColumns(t)| <= 4)
  {}

  lemma SumFew(a: set<Canonical>, b: set<Canonical>)
    ensures |a + b| <= |a| + |b|
  {}

  lemma ColumnsFew(conv: Conventions, spec: Spec)
    requires SpecOk(conv, spec)
    ensures |spec.columns| <= 10
  {
    ColumnsCounted(spec, |spec.columns|);
    assert ColumnKeys(spec) == FirstColumns(spec, |spec.columns|);
    hide RequiredColumns, OptionalColumns, ColumnKeys;
    RequiredFew(spec.documentType);
    SubsetFew(ColumnKeys(spec), RequiredColumns(spec.documentType) + OptionalColumns(spec.documentType));
  }

  // ---------- The whole pipeline ----------

  function Overlay(ctx: Context, registry: map<string, Identity>): seq<Entry>
    requires ctx.spec.documentType.InspectionRecord? ==> "SOP" in registry && "CONTROL_PLAN" in registry
  {
    if ctx.spec.documentType.InspectionRecord? then OverlaidEntries(registry, ToSop) + OverlaidEntries(registry, ToControlPlan) else []
  }

  /** Every mappable table whose references the registry resolves is the table of an honest build. */
  lemma HonestExists(ctx: Context, registry: map<string, Identity>) returns (ev: Evidence, entries: seq<Entry>)
    requires Sound(ctx) && Mappable(ctx) && Rows(ctx) != [] && Complete(FieldsOf(ctx), registry)
    ensures Honest(ev, ctx) && IsFullProvenance(ev, ctx, entries) && ev.registry == registry
    ensures |ev.cells| <= |Rows(ctx)| * 10 && |ev.expected| <= |Rows(ctx)| * 12 && |entries| <= |Rows(ctx)| * 12 + 4
  {
    SoundSpec(ctx);
    ReferencesComplete(ctx, registry);
    ResolvedRegistry(ctx, registry);
    hide *;
    var listed := ProvenanceExists(ctx);
    var cells := CellsExist(ctx);
    FeedsFew(ctx);
    ColumnsFew(ctx.conv, ctx.spec);
    TimesMore(|Rows(ctx)|, |ctx.spec.columns|, 10);
    ev := BuiltEvidence(ctx, registry, cells, listed);
    BuiltIsHonest(ctx, registry, cells, listed);
    OverlayFew(ctx, registry);
    entries := listed + Overlay(ctx, registry);
    OverlayIsFull(ev, ctx, listed, registry);
  }

  lemma SoundSpec(ctx: Context)
    requires Sound(ctx)
    ensures SpecOk(ctx.conv, ctx.spec)
  {}

  lemma TimesMore(n: nat, a: nat, b: nat)
    requires a <= b
    ensures n * a <= n * b
  {}

  lemma ResolvedRegistry(ctx: Context, registry: map<string, Identity>)
    requires Rows(ctx) != [] && Complete(FieldsOf(ctx), registry)
    ensures ctx.spec.documentType.InspectionRecord? ==> "SOP" in registry && "CONTROL_PLAN" in registry
  {
    ReferencesComplete(ctx, registry);
    hide FieldsOf, Rows;
  }

  lemma BuiltIsHonest(ctx: Context, registry: map<string, Identity>, cells: seq<ParserCell>, listed: seq<Entry>)
    requires Sound(ctx) && Mappable(ctx) && Rows(ctx) != [] && Complete(FieldsOf(ctx), registry)
    requires AllParserCells(ctx, cells) && IsProvenance(ctx, listed)
    ensures var ev := BuiltEvidence(ctx, registry, cells, listed);
      Honest(ev, ctx) && ev.registry == registry && ev.cells == cells && ev.expected == listed
  {
    hide Sound, Mappable, Complete, IsProvenance, AllParserCells, FieldsOf, FinalFields;
  }

  lemma OverlayFew(ctx: Context, registry: map<string, Identity>)
    requires ctx.spec.documentType.InspectionRecord? ==> "SOP" in registry && "CONTROL_PLAN" in registry
    ensures |Overlay(ctx, registry)| <= 4
  {}

  lemma OverlayIsFull(ev: Evidence, ctx: Context, listed: seq<Entry>, registry: map<string, Identity>)
    requires Honest(ev, ctx) && IsProvenance(ctx, listed) && ev.registry == registry
    requires ctx.spec.documentType.InspectionRecord? ==> "SOP" in registry && "CONTROL_PLAN" in registry
    ensures IsFullProvenance(ev, ctx, listed + Overlay(ctx, registry))
  {
    hide Honest, IsProvenance, IsFullProvenance, OverlaidEntries;
    OverlaidProvenance(ev, ctx, listed, listed + Overlay(ctx, registry));
  }

  /** Up to 2499 rows, whatever the builder produces is accepted. */
  lemma SourcesAccepted(ctx: Context, registry: map<string, Identity>) returns (ev: Evidence, entries: seq<Entry>)
    requires Sound(ctx) && Mappable(ctx) && Rows(ctx) != [] && Complete(FieldsOf(ctx), registry)
    requires |Rows(ctx)| * 12 + 4 <= MAX_ARTIFACT_MAPPINGS
    ensures Honest(ev, ctx) && IsFullProvenance(ev, ctx, entries) && WithinLimits(ev, entries) && Closed(ev, entries)
    ensures ev.registry == registry
  {
    ev, entries := HonestExists(ctx, registry);
    hide Honest, IsFullProvenance, Closed, Sound, Mappable, Complete;
    HonestAccepted(ev, ctx, entries);
  }
}

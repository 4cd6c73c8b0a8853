/** Which cell feeds which leaf, row by row: the common meaning of the builder and of the evidence plan. */
module Feeds {
  import opened Json
  import opened Provenance
  import opened Tables
  import opened Roles

  type Pair = (Role, Canonical)

  function ValueOf(ctx: Context, row: MappedRow, c: Canonical): Json {
    var v := CellValue(ctx.conv, row, c);
    if v.Some? then v.value else Null
  }

  function FeedAt(ctx: Context, row: MappedRow, p: Pair): Feed {
    Feed(PathOf(p.0), ValueOf(ctx, row, p.1), SourceAt(ctx, row, p.1))
  }

  function FeedsOf(ctx: Context, row: MappedRow, pairs: seq<Pair>): (r: seq<Feed>)
    ensures |r| == |pairs| && forall k :: 0 <= k < |r| ==> r[k] == FeedAt(ctx, row, pairs[k])
  {
    seq(|pairs|, k requires 0 <= k < |pairs| => FeedAt(ctx, row, pairs[k]))
  }

  lemma FeedsOfStep(ctx: Context, feeds: seq<Feed>, row: MappedRow, done: seq<Pair>, p: Pair)
    ensures feeds + FeedsOf(ctx, row, done + [p]) == feeds + FeedsOf(ctx, row, done) + [FeedAt(ctx, row, p)]
  {
    hide FeedAt;
  }

  // ---------- Process steps in first-occurrence order ----------

  function StepsOf(ctx: Context, n: nat): seq<string>
    requires n <= |Rows(ctx)|
  {
    if n == 0 then []
    else
      var before := StepsOf(ctx, n - 1);
      var step := TextOf(ctx, Rows(ctx)[n - 1], ProcessStepId);
      if step in before then before else before + [step]
  }

  function Position(xs: seq<string>, x: string): (k: nat)
    ensures x in xs ==> k < |xs| && xs[k] == x
  {
    if xs == [] || xs[0] == x then 0 else 1 + Position(xs[1..], x)
  }

  /** The step slot row `i` fills. */
  function StepIndex(ctx: Context, i: nat): nat
    requires i < |Rows(ctx)|
  {
    Position(StepsOf(ctx, i + 1), TextOf(ctx, Rows(ctx)[i], ProcessStepId))
  }

  lemma {:induction false} StepsDistinct(ctx: Context, n: nat)
    requires n <= |Rows(ctx)|
    ensures forall i, j :: 0 <= i < j < |StepsOf(ctx, n)| ==> StepsOf(ctx, n)[i] != StepsOf(ctx, n)[j]
  {
    if n > 0 {
      StepsDistinct(ctx, n - 1);
    }
  }

  lemma {:induction false} StepsGrow(ctx: Context, m: nat, n: nat)
    requires m <= n <= |Rows(ctx)|
    ensures StepsOf(ctx, m) <= StepsOf(ctx, n)
  {
    if m < n {
      StepsGrow(ctx, m, n - 1);
    }
  }

  /** The slot a row fills holds that row's step, in every longer step list. */
  lemma SlotHoldsStep(ctx: Context, i: nat, n: nat)
    requires i < n <= |Rows(ctx)|
    ensures StepIndex(ctx, i) < |StepsOf(ctx, n)|
    ensures StepsOf(ctx, n)[StepIndex(ctx, i)] == TextOf(ctx, Rows(ctx)[i], ProcessStepId)
  {
    StepsGrow(ctx, i + 1, n);
    assert TextOf(ctx, Rows(ctx)[i], ProcessStepId) in StepsOf(ctx, i + 1);
  }

  /** When no step repeats, the slots are the row numbers. */
  lemma {:induction false} DistinctStepsInOrder(ctx: Context, n: nat)
    requires n <= |Rows(ctx)|
    requires forall i, j :: 0 <= i < j < n ==>
      TextOf(ctx, Rows(ctx)[i], ProcessStepId) != TextOf(ctx, Rows(ctx)[j], ProcessStepId)
    ensures |StepsOf(ctx, n)| == n
    ensures forall i :: 0 <= i < n ==> StepsOf(ctx, n)[i] == TextOf(ctx, Rows(ctx)[i], ProcessStepId) && StepIndex(ctx, i) == i
  {
    hide TextOf, StepIndex;
    if n > 0 {
      DistinctStepsInOrder(ctx, n - 1);
      var step := TextOf(ctx, Rows(ctx)[n - 1], ProcessStepId);
      assert step !in StepsOf(ctx, n - 1) by {
        hide StepsOf;
      }
      assert StepsOf(ctx, n) == StepsOf(ctx, n - 1) + [step];
      SlotIs(ctx, n);
    }
  }

  lemma SlotIs(ctx: Context, n: nat)
    requires 0 < n <= |Rows(ctx)| && |StepsOf(ctx, n - 1)| == n - 1
    requires TextOf(ctx, Rows(ctx)[n - 1], ProcessStepId) !in StepsOf(ctx, n - 1)
    ensures StepIndex(ctx, n - 1) == n - 1
  {
    hide TextOf;
    SlotHoldsStep(ctx, n - 1, n);
  }

  // ---------- Roles of one row ----------

  function CharacteristicColumns(controls: bool): seq<Canonical> {
    [CharacteristicId, ProcessStepId] + (if controls then [ControlId] else []) + [Target, Minimum, Maximum, Unit]
      + (if controls then [ControlMethod, Frequency, ReactionPlan] else [])
  }

  function CharacteristicPairs(controls: bool, i: nat): seq<Pair> {
    var columns := CharacteristicColumns(controls);
    seq(|columns|, k requires 0 <= k < |columns| => (CharRole(i, columns[k]), columns[k]))
  }

  function RiskPairs(effect: bool, i: nat): seq<Pair> {
    [(RiskRole(i, FailureModeId), FailureModeId), (RiskRole(i, ProcessStepId), ProcessStepId),
     (RiskRole(i, CharacteristicId), CharacteristicId), (RiskRole(i, SpecialCharacteristic), SpecialCharacteristic)]
      + (if effect then [(RiskRole(i, Effect), Effect)] else [])
  }

  predicate HasEffect(ctx: Context) {
    Effect in ColumnKeys(ctx.spec)
  }

  /** Row `i`'s contributions other than an inspection's references. */
  function RowPairs(ctx: Context, i: nat): seq<Pair>
    requires i < |Rows(ctx)|
  {
    [(StepRole(StepIndex(ctx, i)), ProcessStepId)] + BodyPairs(ctx, i)
  }

  function BodyPairs(ctx: Context, i: nat): seq<Pair> {
    match ctx.spec.documentType
    case ProcessFlow => []
    case Pfmea => RiskPairs(HasEffect(ctx), i)
    case _ => CharacteristicPairs(ctx.spec.documentType.ControlPlan?, i)
  }

  function RefPairs(ctx: Context): seq<Pair> {
    if ctx.spec.documentType.InspectionRecord? then RefColumns() else []
  }

  function RowFeeds(ctx: Context, n: nat): seq<Feed>
    requires n <= |Rows(ctx)|
  {
    if n == 0 then [] else RowFeeds(ctx, n - 1) + FeedsOf(ctx, Rows(ctx)[n - 1], RowPairs(ctx, n - 1))
  }

  function RefFeeds(ctx: Context, n: nat): seq<Feed>
    requires n <= |Rows(ctx)|
  {
    if n == 0 then [] else RefFeeds(ctx, n - 1) + FeedsOf(ctx, Rows(ctx)[n - 1], RefPairs(ctx))
  }

  /** Contributions in the order the evidence plan takes them: references with their row. */
  function PlanFeeds(ctx: Context, n: nat): seq<Feed>
    requires n <= |Rows(ctx)|
  {
    if n == 0 then []
    else PlanFeeds(ctx, n - 1) + FeedsOf(ctx, Rows(ctx)[n - 1], RowPairs(ctx, n - 1)) + FeedsOf(ctx, Rows(ctx)[n - 1], RefPairs(ctx))
  }

  // ---------- Grouping by target ----------

  lemma NothingFed(t: Path)
    ensures Contributors([], t) == []
  {}

  lemma NoContributor(ctx: Context, row: MappedRow, pairs: seq<Pair>, t: Path)
    requires forall k :: 0 <= k < |pairs| ==> PathOf(pairs[k].0) != t
    ensures Contributors(FeedsOf(ctx, row, pairs), t) == []
  {
    NoTarget(FeedsOf(ctx, row, pairs), t);
  }

  ghost predicate DistinctRoles(pairs: seq<Pair>) {
    forall i, j :: 0 <= i < j < |pairs| ==> pairs[i].0 != pairs[j].0
  }

  lemma {:induction false} OneContributor(ctx: Context, row: MappedRow, pairs: seq<Pair>, k: nat)
    requires DistinctRoles(pairs) && k < |pairs|
    ensures Contributors(FeedsOf(ctx, row, pairs), PathOf(pairs[k].0)) == [FeedAt(ctx, row, pairs[k])]
  {
    var n := |pairs| - 1;
    var t := PathOf(pairs[k].0);
    var front := pairs[..n];
    assert FeedsOf(ctx, row, pairs)[..n] == FeedsOf(ctx, row, front);
    if k == n {
      forall j | 0 <= j < n ensures PathOf(front[j].0) != t {
        PathsDiffer(front[j].0, pairs[k].0);
      }
      NoContributor(ctx, row, front, t);
    } else {
      PathsDiffer(pairs[n].0, pairs[k].0);
      OneContributor(ctx, row, front, k);
    }
  }

  lemma CharacteristicColumnsDistinct(controls: bool)
    ensures forall i, j :: 0 <= i < j < |CharacteristicColumns(controls)| ==>
      CharacteristicColumns(controls)[i] != CharacteristicColumns(controls)[j]
    ensures forall i :: 0 <= i < |CharacteristicColumns(controls)| ==>
      CharacteristicColumns(controls)[i] in RequiredColumns(if controls then ControlPlan else Sop)
  {}

  /** Row and reference roles are distinct, and their columns are mapped ones. */
  lemma RowRoles(ctx: Context, i: nat)
    requires i < |Rows(ctx)| && Sound(ctx)
    ensures DistinctRoles(RowPairs(ctx, i))
    ensures forall k :: 0 <= k < |RowPairs(ctx, i)| ==> OfRow(ctx, i, RowPairs(ctx, i)[k])
    ensures forall k :: 0 < k < |RowPairs(ctx, i)| ==> OwnPair(i, RowPairs(ctx, i)[k])
  {
    var body := BodyPairs(ctx, i);
    BodyRoles(ctx, i);
    hide BodyPairs, StepIndex, ColumnKeys;
    forall k | 0 < k < |RowPairs(ctx, i)| ensures RowPairs(ctx, i)[k] == body[k - 1] {}
  }

  lemma BodyRoles(ctx: Context, i: nat)
    requires i < |Rows(ctx)| && RequiredColumns(ctx.spec.documentType) <= ColumnKeys(ctx.spec)
    ensures DistinctRoles(BodyPairs(ctx, i))
    ensures forall k :: 0 <= k < |BodyPairs(ctx, i)| ==>
      && OwnPair(i, BodyPairs(ctx, i)[k]) && BodyPairs(ctx, i)[k].1 in ColumnKeys(ctx.spec)
      && !IsRefColumn(BodyPairs(ctx, i)[k].1)
    ensures ProcessStepId in ColumnKeys(ctx.spec)
  {
    CharacteristicColumnsDistinct(ctx.spec.documentType.ControlPlan?);
    hide CharacteristicColumns;
  }

  lemma RefRoles(ctx: Context)
    requires Sound(ctx)
    ensures DistinctRoles(RefPairs(ctx))
    ensures forall k :: 0 <= k < |RefPairs(ctx)| ==> RefPairs(ctx)[k].0.RefRole? && RefPairs(ctx)[k].1 in ColumnKeys(ctx.spec)
  {
    RequiredAreKeys(ctx);
    RefColumnsDistinct();
    hide Sound, ColumnKeys, RefColumns, RequiredColumns;
    assert ctx.spec.documentType.InspectionRecord? ==> RefPairs(ctx) == RefColumns();
  }

  lemma RefColumnsDistinct()
    ensures DistinctRoles(RefColumns())
    ensures forall k :: 0 <= k < |RefColumns()| ==> RefColumns()[k].0.RefRole? && RefColumns()[k].1 in RequiredColumns(InspectionRecord)
  {}

  lemma RequiredAreKeys(ctx: Context)
    requires Sound(ctx)
    ensures RequiredColumns(ctx.spec.documentType) <= ColumnKeys(ctx.spec)
  {
    hide RequiredColumns, WellFormed;
  }

  predicate OwnPair(i: nat, p: Pair) {
    p.0 == RiskRole(i, p.1) || p.0 == CharRole(i, p.1)
  }

  /** The roles row `i` can fill outside the references. */
  predicate OfRow(ctx: Context, i: nat, p: Pair)
    requires i < |Rows(ctx)|
  {
    p.1 in ColumnKeys(ctx.spec) && !IsRefColumn(p.1) && (p == (StepRole(StepIndex(ctx, i)), ProcessStepId) || OwnPair(i, p))
  }

  lemma NoReferenceInRow(ctx: Context, i: nat, t: RefTarget, l: RefLeaf)
    requires i < |Rows(ctx)| && Sound(ctx)
    ensures Contributors(FeedsOf(ctx, Rows(ctx)[i], RowPairs(ctx, i)), PathOf(RefRole(t, l))) == []
  {
    RowRoles(ctx, i);
    var pairs := RowPairs(ctx, i);
    forall k | 0 <= k < |pairs| ensures PathOf(pairs[k].0) != PathOf(RefRole(t, l)) {
      PathsDiffer(pairs[k].0, RefRole(t, l));
    }
    NoContributor(ctx, Rows(ctx)[i], pairs, PathOf(RefRole(t, l)));
  }

  /** A path other than the four read reference leaves gets nothing from the reference columns. */
  lemma {:induction false} NoReferenceFeeds(ctx: Context, n: nat, t: Path)
    requires n <= |Rows(ctx)|
    requires forall k :: 0 <= k < |RefPairs(ctx)| ==> PathOf(RefPairs(ctx)[k].0) != t
    ensures Contributors(RefFeeds(ctx, n), t) == []
  {
    if n > 0 {
      NoReferenceFeeds(ctx, n - 1, t);
      NoContributor(ctx, Rows(ctx)[n - 1], RefPairs(ctx), t);
      ContributorsConcat(RefFeeds(ctx, n - 1), FeedsOf(ctx, Rows(ctx)[n - 1], RefPairs(ctx)), t);
    }
  }

  lemma {:induction false} NoRowFeeds(ctx: Context, n: nat, t: RefTarget, l: RefLeaf)
    requires n <= |Rows(ctx)| && Sound(ctx)
    ensures Contributors(RowFeeds(ctx, n), PathOf(RefRole(t, l))) == []
  {
    hide RowPairs, RefPairs, FeedsOf, Contributors, Sound, PathOf, FeedAt;
    NothingFed(PathOf(RefRole(t, l)));
    if n > 0 {
      var path := PathOf(RefRole(t, l));
      NoRowFeeds(ctx, n - 1, t, l);
      NoReferenceInRow(ctx, n - 1, t, l);
      ContributorsConcat(RowFeeds(ctx, n - 1), FeedsOf(ctx, Rows(ctx)[n - 1], RowPairs(ctx, n - 1)), path);
    }
  }

  lemma SwapMiddle<T>(a: seq<T>, b: seq<T>, c: seq<T>, d: seq<T>)
    requires b == [] || c == []
    ensures a + b + c + d == (a + c) + (b + d)
  {}

  /** Either the reference columns or row `i`'s other columns leave `t` alone. */
  lemma OneSideEmpty(ctx: Context, i: nat, n: nat, t: Path)
    requires i < |Rows(ctx)| && n <= |Rows(ctx)| && Sound(ctx)
    ensures Contributors(RefFeeds(ctx, n), t) == [] || Contributors(FeedsOf(ctx, Rows(ctx)[i], RowPairs(ctx, i)), t) == []
  {
    if k :| 0 <= k < |RefPairs(ctx)| && PathOf(RefPairs(ctx)[k].0) == t {
      RefRoles(ctx);
      NoReferenceInRow(ctx, i, RefPairs(ctx)[k].0.target, RefPairs(ctx)[k].0.leaf);
    } else {
      NoReferenceFeeds(ctx, n, t);
    }
  }

  /** Taking the references after all rows, as the builder does, or with each row, as the plan does,
      groups the cells in the same way and order. */
  lemma {:induction false} SameGroups(ctx: Context, n: nat, t: Path)
    requires n <= |Rows(ctx)| && Sound(ctx)
    ensures Contributors(PlanFeeds(ctx, n), t) == Contributors(RowFeeds(ctx, n), t) + Contributors(RefFeeds(ctx, n), t)
  {
    hide RowPairs, RefPairs, FeedsOf, Contributors, Sound, PathOf, FeedAt;
    NothingFed(t);
    if n > 0 {
      var row := Rows(ctx)[n - 1];
      var rowPart, refPart := FeedsOf(ctx, row, RowPairs(ctx, n - 1)), FeedsOf(ctx, row, RefPairs(ctx));
      SameGroups(ctx, n - 1, t);
      PlanStep(ctx, n, t);
      ContributorsConcat(RowFeeds(ctx, n - 1), rowPart, t);
      ContributorsConcat(RefFeeds(ctx, n - 1), refPart, t);
      OneSideEmpty(ctx, n - 1, n - 1, t);
      SwapMiddle(Contributors(RowFeeds(ctx, n - 1), t), Contributors(RefFeeds(ctx, n - 1), t),
                 Contributors(rowPart, t), Contributors(refPart, t));
    }
  }

  lemma PlanStep(ctx: Context, n: nat, t: Path)
    requires 0 < n <= |Rows(ctx)|
    ensures Contributors(PlanFeeds(ctx, n), t) == Contributors(PlanFeeds(ctx, n - 1), t)
      + Contributors(FeedsOf(ctx, Rows(ctx)[n - 1], RowPairs(ctx, n - 1)), t)
      + Contributors(FeedsOf(ctx, Rows(ctx)[n - 1], RefPairs(ctx)), t)
  {
    var row := Rows(ctx)[n - 1];
    var rowPart, refPart := FeedsOf(ctx, row, RowPairs(ctx, n - 1)), FeedsOf(ctx, row, RefPairs(ctx));
    ContributorsConcat(PlanFeeds(ctx, n - 1), rowPart, t);
    ContributorsConcat(PlanFeeds(ctx, n - 1) + rowPart, refPart, t);
  }

  // ---------- One cell per row leaf ----------

  /** A row other than `i` leaves row `i`'s own leaves alone, and so do the references. */
  lemma OtherRowSilent(ctx: Context, i: nat, j: nat, p: Pair)
    requires Sound(ctx) && i < |Rows(ctx)| && j < |Rows(ctx)| && OwnPair(i, p)
    ensures i != j ==> Contributors(FeedsOf(ctx, Rows(ctx)[j], RowPairs(ctx, j)), PathOf(p.0)) == []
    ensures Contributors(FeedsOf(ctx, Rows(ctx)[j], RefPairs(ctx)), PathOf(p.0)) == []
  {
    var pairs := RowPairs(ctx, j);
    RowRoles(ctx, j);
    RefRoles(ctx);
    if i != j {
      forall k | 0 <= k < |pairs| ensures PathOf(pairs[k].0) != PathOf(p.0) {
        assert OfRow(ctx, j, pairs[k]);
        PathsDiffer(pairs[k].0, p.0);
      }
      NoContributor(ctx, Rows(ctx)[j], pairs, PathOf(p.0));
    }
    forall k | 0 <= k < |RefPairs(ctx)| ensures PathOf(RefPairs(ctx)[k].0) != PathOf(p.0) {
      PathsDiffer(RefPairs(ctx)[k].0, p.0);
    }
    NoContributor(ctx, Rows(ctx)[j], RefPairs(ctx), PathOf(p.0));
  }

  /** A leaf of risk or characteristic `i` is fed by row `i` alone. */
  lemma {:induction false} OwnLeafGroup(ctx: Context, n: nat, i: nat, k: nat)
    requires Sound(ctx) && n <= |Rows(ctx)| && i < |Rows(ctx)| && 0 < k < |RowPairs(ctx, i)|
    ensures Contributors(PlanFeeds(ctx, n), PathOf(RowPairs(ctx, i)[k].0)) ==
      if i < n then [FeedAt(ctx, Rows(ctx)[i], RowPairs(ctx, i)[k])] else []
  {
    hide RowPairs, RefPairs, FeedsOf, Contributors, Sound, PathOf, FeedAt;
    NothingFed(PathOf(RowPairs(ctx, i)[k].0));
    if n > 0 {
      var p := RowPairs(ctx, i)[k];
      RowRoles(ctx, i);
      OwnLeafGroup(ctx, n - 1, i, k);
      PlanStep(ctx, n, PathOf(p.0));
      OtherRowSilent(ctx, i, n - 1, p);
      if i == n - 1 {
        OneContributor(ctx, Rows(ctx)[i], RowPairs(ctx, i), k);
      }
    }
  }

  // ---------- Why no contribution is ever refused ----------

  ghost predicate ReadableBelow(ctx: Context, n: nat)
    requires n <= |Rows(ctx)|
  {
    forall i :: 0 <= i < n ==> BodyReadable(ctx, Rows(ctx)[i])
  }

  /** The feed comes from a row before `n`. */
  ghost predicate FromSomeRow(ctx: Context, f: Feed, n: nat)
    requires n <= |Rows(ctx)|
  {
    exists i: nat, p: Pair :: i < n && TakenFrom(ctx, f, i, p)
  }

  ghost predicate TakenFrom(ctx: Context, f: Feed, i: nat, p: Pair)
    requires i < |Rows(ctx)|
  {
    && (OfRow(ctx, i, p) || p in RefPairs(ctx))
    && CellValue(ctx.conv, Rows(ctx)[i], p.1).Some? && f == FeedAt(ctx, Rows(ctx)[i], p)
  }

  ghost predicate FromRows(ctx: Context, feeds: seq<Feed>, n: nat)
    requires n <= |Rows(ctx)|
  {
    forall f :: f in feeds ==> FromSomeRow(ctx, f, n)
  }

  lemma FromRowsStep(ctx: Context, feeds: seq<Feed>, n: nat, pairs: seq<Pair>)
    requires n < |Rows(ctx)| && FromRows(ctx, feeds, n)
    requires forall k :: 0 <= k < |pairs| ==> OfRow(ctx, n, pairs[k]) || pairs[k] in RefPairs(ctx)
    requires forall k :: 0 <= k < |pairs| ==> CellValue(ctx.conv, Rows(ctx)[n], pairs[k].1).Some?
    ensures FromRows(ctx, feeds + FeedsOf(ctx, Rows(ctx)[n], pairs), n + 1)
  {
    var added := FeedsOf(ctx, Rows(ctx)[n], pairs);
    forall f | f in feeds + added ensures FromSomeRow(ctx, f, n + 1) {
      if f in feeds {
        assert FromSomeRow(ctx, f, n);
        var i: nat, p: Pair :| i < n && TakenFrom(ctx, f, i, p);
        assert i < n + 1;
      } else {
        var k :| 0 <= k < |added| && added[k] == f;
        assert TakenFrom(ctx, f, n, pairs[k]);
      }
    }
  }

  lemma {:induction false} RowFeedsFromRows(ctx: Context, n: nat)
    requires n <= |Rows(ctx)| && Sound(ctx) && ReadableBelow(ctx, n)
    ensures FromRows(ctx, RowFeeds(ctx, n), n)
  {
    hide RowPairs, RefPairs, FeedsOf, Contributors, Sound, PathOf, FeedAt;
    if n > 0 {
      RowFeedsFromRows(ctx, n - 1);
      RowRoles(ctx, n - 1);
      FromRowsStep(ctx, RowFeeds(ctx, n - 1), n - 1, RowPairs(ctx, n - 1));
    }
  }

  lemma {:induction false} PlanFeedsFromRows(ctx: Context, n: nat)
    requires n <= |Rows(ctx)| && Sound(ctx) && forall i :: 0 <= i < n ==> Readable(ctx, Rows(ctx)[i])
    ensures FromRows(ctx, PlanFeeds(ctx, n), n)
  {
    hide RowPairs, RefPairs, FeedsOf, Contributors, Sound, PathOf, FeedAt;
    if n > 0 {
      PlanFeedsFromRows(ctx, n - 1);
      RowRoles(ctx, n - 1);
      RefRoles(ctx);
      var pairs := RowPairs(ctx, n - 1) + RefPairs(ctx);
      FromRowsStep(ctx, PlanFeeds(ctx, n - 1), n - 1, pairs);
      var row := Rows(ctx)[n - 1];
      assert PlanFeeds(ctx, n) == PlanFeeds(ctx, n - 1) + FeedsOf(ctx, row, pairs);
    }
  }

  /** Cells of different rows are different sources. */
  lemma SourcesApart(ctx: Context, i: nat, j: nat, c: Canonical, d: Canonical)
    requires Sound(ctx) && i < j < |Rows(ctx)| && c in Rows(ctx)[i].cells && d in Rows(ctx)[j].cells
    ensures SourceAt(ctx, Rows(ctx)[i], c) != SourceAt(ctx, Rows(ctx)[j], d)
  {
    assert RowWellFormed(ctx.conv, ctx.spec, ctx.sourceHash, Rows(ctx)[i]);
    assert RowWellFormed(ctx.conv, ctx.spec, ctx.sourceHash, Rows(ctx)[j]);
    assert CellWellFormed(ctx.conv, ctx.sourceHash, Rows(ctx)[i].number, Rows(ctx)[i].cells[c]);
    assert CellWellFormed(ctx.conv, ctx.sourceHash, Rows(ctx)[j].number, Rows(ctx)[j].cells[d]);
  }

  /** An earlier row's contribution to the same leaf: it can only be the same step from another cell. */
  lemma EarlierFeedAgrees(ctx: Context, g: Feed, n: nat, p: Pair)
    requires Sound(ctx) && n < |Rows(ctx)| && CellValue(ctx.conv, Rows(ctx)[n], p.1).Some?
    requires FromSomeRow(ctx, g, n) && OfRow(ctx, n, p) && g.target == PathOf(p.0)
    ensures g.value == ValueOf(ctx, Rows(ctx)[n], p.1) && g.source != SourceAt(ctx, Rows(ctx)[n], p.1)
  {
    hide RowPairs, RefPairs, PathOf, StepIndex, WellFormed, SpecOk;
    var i: nat, q: Pair :| i < n && TakenFrom(ctx, g, i, q);
    PathsDiffer(q.0, p.0);
    SameRoleSameStep(ctx, i, n, q, p);
    SourcesApart(ctx, i, n, q.1, p.1);
  }

  /** Two rows fill the same leaf only when it is the slot of a step they share. */
  lemma SameRoleSameStep(ctx: Context, i: nat, n: nat, q: Pair, p: Pair)
    requires i < n < |Rows(ctx)| && q.0 == p.0 && OfRow(ctx, n, p) && (OfRow(ctx, i, q) || q in RefPairs(ctx))
    ensures q == p && p.1 == ProcessStepId
    ensures TextOf(ctx, Rows(ctx)[i], ProcessStepId) == TextOf(ctx, Rows(ctx)[n], ProcessStepId)
  {
    hide StepsOf;
    SlotHoldsStep(ctx, i, n + 1);
    SlotHoldsStep(ctx, n, n + 1);
  }

  /** A row's contribution to one of its own leaves or to a step slot always joins what came before. */
  lemma RowFeedJoins(ctx: Context, before: seq<Feed>, n: nat, done: seq<Pair>, p: Pair)
    requires Sound(ctx) && n < |Rows(ctx)| && FromRows(ctx, before, n)
    requires OfRow(ctx, n, p) && CellValue(ctx.conv, Rows(ctx)[n], p.1).Some?
    requires forall k :: 0 <= k < |done| ==> done[k].0 != p.0
    ensures Joins(before + FeedsOf(ctx, Rows(ctx)[n], done), FeedAt(ctx, Rows(ctx)[n], p))
  {
    var f := FeedAt(ctx, Rows(ctx)[n], p);
    var added := FeedsOf(ctx, Rows(ctx)[n], done);
    forall g | g in before + added && g.target == f.target ensures g.value == f.value && g.source != f.source {
      if g in before {
        EarlierFeedAgrees(ctx, g, n, p);
      } else {
        var k :| 0 <= k < |added| && added[k] == g;
        PathsDiffer(done[k].0, p.0);
      }
    }
  }
}

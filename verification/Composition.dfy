/** When applying one operation list after another has the effect of applying their concatenation. */
module Composition {
  import opened Json
  import opened Mutations

  const MARKER := "active_mutation"

  function MutationOf(id: string, operations: seq<Json>): Json {
    Obj(map["mutation_id" := Str(id), "operations" := Arr(operations)])
  }

  /** Applying `a` and then `b` ends as applying their concatenation does, every failure included. */
  ghost predicate ComposesWith(theCase: Json, first: string, a: seq<Json>, second: string, b: seq<Json>) {
    Mutated(theCase, MutationOf(second, a + b)) ==
      (match Mutated(theCase, MutationOf(first, a))
       case None => None
       case Some(between) => Mutated(between, MutationOf(second, b)))
  }

  /** The same of the operations alone, without the bound on their number. */
  ghost predicate RunsTogether(theCase: Json, first: string, a: seq<Json>, second: string, b: seq<Json>) {
    Applied(theCase, second, a + b) ==
      (match Applied(theCase, first, a)
       case None => None
       case Some(between) => Applied(between, second, b))
  }

  /** The Case and the early index once `a` has run. */
  function After(theCase: Json, a: seq<Json>): Option<Machine> {
    match Begin(theCase)
    case None => None
    case Some(m) => Run(m, a)
  }

  predicate MarkerIsObject(tree: Json) {
    Get(tree, MARKER).Some? && Get(tree, MARKER).value.Obj?
  }

  // ---------- Running beside the marker ----------

  /** Alike in everything but the mutation marker. */
  ghost predicate Alike(t: Json, u: Json) {
    t.Obj? && u.Obj? && forall name :: name != MARKER ==> Get(t, name) == Get(u, name)
  }

  predicate MarkersAgree(t: Json, u: Json) {
    Get(t, MARKER) == Get(u, MARKER) || (!MarkerIsObject(t) && !MarkerIsObject(u))
  }

  /** An edit of the Case inside the marker's own value. */
  predicate BelowMarker(step: Step)
    requires |step.parts| > 0
  {
    step.target.OnCase? && |step.parts| > 1 && step.parts[0] == MARKER
  }

  predicate ReadsMarker(op: Json) {
    ReadOperation(op).Some? && BelowMarker(ReadOperation(op).value)
  }

  /** The member a path's root names after an edit; None where it is gone. */
  function RootAfter(j: Json, parts: seq<string>, edit: Edit): Option<Json>
    requires |parts| > 0
  {
    if |parts| == 1 then (if edit.Put? then Some(edit.value) else None)
    else if Get(j, parts[0]).Some? then EditAt(Get(j, parts[0]).value, parts[1..], edit) else None
  }

  lemma EditedMembers(j: Json, parts: seq<string>, edit: Edit, name: string)
    requires |parts| > 0 && j.Obj?
    ensures EditAt(j, parts, edit).Some? <==> |parts| == 1 || RootAfter(j, parts, edit).Some?
    ensures EditAt(j, parts, edit).Some? ==>
      && EditAt(j, parts, edit).value.Obj?
      && Get(EditAt(j, parts, edit).value, name) == if name == parts[0] then RootAfter(j, parts, edit) else Get(j, name)
  {}

  /** One edit of two objects that agree on the member its path's root names. */
  lemma EditAlike(t: Json, u: Json, parts: seq<string>, edit: Edit)
    requires Alike(t, u) && |parts| > 0 && (parts[0] == MARKER && |parts| > 1 ==> MarkersAgree(t, u))
    ensures EditAt(t, parts, edit).Some? <==> EditAt(u, parts, edit).Some?
    ensures EditAt(t, parts, edit).Some? ==>
      && Alike(EditAt(t, parts, edit).value, EditAt(u, parts, edit).value)
      && (MarkersAgree(t, u) ==> MarkersAgree(EditAt(t, parts, edit).value, EditAt(u, parts, edit).value))
  {
    assert RootAfter(t, parts, edit) == RootAfter(u, parts, edit) by {
      assert parts[0] != MARKER ==> Get(t, parts[0]) == Get(u, parts[0]);
    }
    forall name ensures EditAt(t, parts, edit).Some? && EditAt(u, parts, edit).Some? && name != MARKER ==>
      Get(EditAt(t, parts, edit).value, name) == Get(EditAt(u, parts, edit).value, name)
    {
      EditedMembers(t, parts, edit, name);
      EditedMembers(u, parts, edit, name);
    }
    EditedMembers(t, parts, edit, MARKER);
    EditedMembers(u, parts, edit, MARKER);
  }

  /** What a machine beside another must show after the same step. */
  ghost predicate Beside(m: Machine, n: Machine) {
    m.index == n.index && Alike(m.tree, n.tree)
  }

  ghost predicate BothStep(m: Machine, n: Machine, x: Option<Machine>, y: Option<Machine>) {
    && (x.Some? <==> y.Some?)
    && (x.Some? ==> Beside(x.value, y.value) && (MarkersAgree(m.tree, n.tree) ==> MarkersAgree(x.value.tree, y.value.tree)))
  }

  lemma AlikeDocuments(t: Json, u: Json)
    requires Alike(t, u)
    ensures Documents(t) == Documents(u) && Get(t, "event") == Get(u, "event")
  {
    assert "documents" != MARKER && "event" != MARKER;
  }

  lemma PutAlike(t: Json, u: Json, name: string, value: Json)
    requires Alike(t, u) && name != MARKER
    ensures var x, y := Obj(t.members[name := value]), Obj(u.members[name := value]);
      Alike(x, y) && (MarkersAgree(t, u) ==> MarkersAgree(x, y))
  {
    EditAlike(t, u, [name], Put(value));
  }

  lemma StepBeside(m: Machine, n: Machine, step: Step)
    requires Beside(m, n) && |step.parts| > 0 && (BelowMarker(step) ==> MarkersAgree(m.tree, n.tree))
    ensures BothStep(m, n, Execute(m, step), Execute(n, step))
  {
    AlikeDocuments(m.tree, n.tree);
    assert "documents" != MARKER && "event" != MARKER;
    hide EditAt, Alike, MarkersAgree;
    match step.target
    case OnEvent =>
      var event := Get(m.tree, "event");
      if event.Some? && EditAt(event.value, step.parts, step.edit).Some? {
        AlikeObjects(m.tree, n.tree);
        PutAlike(m.tree, n.tree, "event", EditAt(event.value, step.parts, step.edit).value);
      }
    case OnCase =>
      EditAlike(m.tree, n.tree, step.parts, step.edit);
    case OnDocument(id) =>
      AlikeObjects(m.tree, n.tree);
      forall items: seq<Json>
        ensures var x, y := WithDocuments(m.tree, items), WithDocuments(n.tree, items);
          Alike(x, y) && (MarkersAgree(m.tree, n.tree) ==> MarkersAgree(x, y))
      {
        PutAlike(m.tree, n.tree, "documents", Arr(items));
      }
  }

  lemma AlikeObjects(t: Json, u: Json)
    requires Alike(t, u)
    ensures t.Obj? && u.Obj?
  {}

  lemma {:induction false} RunBeside(m: Machine, n: Machine, operations: seq<Json>)
    requires Beside(m, n)
    requires MarkersAgree(m.tree, n.tree) || forall k :: 0 <= k < |operations| ==> !ReadsMarker(operations[k])
    ensures BothStep(m, n, Run(m, operations), Run(n, operations))
    decreases |operations|
  {
    hide Execute, Beside, MarkersAgree;
    if operations != [] {
      var step := ReadOperation(operations[0]);
      if step.Some? {
        assert !MarkersAgree(m.tree, n.tree) ==> !ReadsMarker(operations[0]);
        StepBeside(m, n, step.value);
        var x, y := Execute(m, step.value), Execute(n, step.value);
        if x.Some? {
          RunBeside(x.value, y.value, operations[1..]);
        }
      }
    }
  }

  // ---------- The two sides of the equation ----------

  /** Running `b` and setting the marker. */
  function Finish(m: Machine, id: string, b: seq<Json>): Option<Json> {
    match Run(m, b)
    case None => None
    case Some(done) => if done.tree.Obj? then Some(Marked(done.tree, id)) else None
  }

  lemma Reduced(theCase: Json, first: string, a: seq<Json>, second: string, b: seq<Json>)
    ensures After(theCase, a).None? ==> RunsTogether(theCase, first, a, second, b)
    ensures After(theCase, a).Some? ==>
      && After(theCase, a).value.tree.Obj?
      && Applied(theCase, first, a) == Some(Marked(After(theCase, a).value.tree, first))
      && Applied(theCase, second, a + b) == Finish(After(theCase, a).value, second, b)
      && (RunsTogether(theCase, first, a, second, b) <==>
          Finish(After(theCase, a).value, second, b) == Applied(Marked(After(theCase, a).value.tree, first), second, b))
  {
    hide Marked, Execute;
    var start := Begin(theCase);
    if start.Some? {
      RunConcat(start.value, a, b);
      RunKeepsObject(start.value, a);
    }
  }

  lemma MarkedAlike(tree: Json, id: string)
    requires tree.Obj?
    ensures Marked(tree, id).Obj? && Alike(tree, Marked(tree, id)) && Documents(Marked(tree, id)) == Documents(tree)
    ensures Get(Marked(tree, id), MARKER) == Some(Str(id)) && !MarkerIsObject(Marked(tree, id))
  {}

  lemma FinishAlike(t: Json, u: Json, id: string)
    requires Alike(t, u)
    ensures Marked(t, id) == Marked(u, id)
  {
    var x, y := Marked(t, id), Marked(u, id);
    forall name ensures name in x.members <==> name in y.members {
      assert name != MARKER ==> Get(t, name) == Get(u, name);
    }
    forall name | name in x.members ensures x.members[name] == y.members[name] {
      assert name != MARKER ==> Get(t, name) == Get(u, name);
    }
    assert x.members == y.members;
  }

  /** A current index lets every second list follow, if it leaves the marker's inside alone or there is none. */
  lemma CurrentComposes(theCase: Json, first: string, a: seq<Json>, second: string, b: seq<Json>)
    requires After(theCase, a).Some? ==> Current(After(theCase, a).value)
    requires After(theCase, a).Some? && MarkerIsObject(After(theCase, a).value.tree) ==> forall k :: 0 <= k < |b| ==> !ReadsMarker(b[k])
    ensures RunsTogether(theCase, first, a, second, b)
  {
    Reduced(theCase, first, a, second, b);
    if After(theCase, a).Some? {
      var m := After(theCase, a).value;
      MarkedAlike(m.tree, first);
      var n := Machine(Marked(m.tree, first), m.index);
      assert Begin(n.tree) == Some(n);
      hide RunsTogether, Marked, Current, Alike, After, Begin, ReadsMarker;
      RunBeside(m, n, b);
      var x, y := Run(m, b), Run(n, b);
      if x.Some? {
        AlikeObjects(x.value.tree, y.value.tree);
        FinishAlike(x.value.tree, y.value.tree, second);
      }
    }
  }

  // ---------- Written operations ----------

  predicate Dotless(s: string) {
    forall k :: 0 <= k < |s| ==> s[k] != '.'
  }

  lemma {:induction false} SplitDotless(s: string)
    requires Dotless(s)
    ensures Split(s) == [s]
  {
    if s != "" {
      SplitDotless(s[1..]);
      assert [s[0]] + s[1..] == s;
    }
  }

  function SetText(id: string, path: string, value: string): Json {
    Obj(map["op" := Str("set"), "document_id" := Str(id), "path" := Str(path), "value" := Str(value)])
  }

  lemma SetTextReads(id: string, path: string, value: string)
    requires path != "" && Dotless(path)
    ensures ReadOperation(SetText(id, path, value)) == Some(Step(OnDocument(id), [path], Put(Str(value))))
  {
    SplitDotless(path);
    var op := SetText(id, path, value);
    assert Get(op, "target").None? && TextAt(op, "path") == Some(path) && TextAt(op, "op") == Some("set");
    assert TextAt(op, "document_id") == Some(id) && Get(op, "value") == Some(Str(value));
  }

  lemma ReadsOwner(id: string, value: string)
    ensures ReadOperation(SetText(id, "owner", value)) == Some(Step(OnDocument(id), ["owner"], Put(Str(value))))
  {
    SetTextReads(id, "owner", value);
  }

  lemma {:induction false} SplitPair(p: string, q: string)
    requires Dotless(p) && Dotless(q)
    ensures Split(p + "." + q) == [p, q]
  {
    var s := p + "." + q;
    if p == "" {
      SplitDotless(q);
      assert s[1..] == q;
    } else {
      SplitPair(p[1..], q);
      assert s[1..] == p[1..] + "." + q;
      assert [p[0]] + p[1..] == p;
    }
  }

  function CaseSet(path: string, value: Json): Json {
    Obj(map["op" := Str("set"), "target" := Str("case"), "path" := Str(path), "value" := value])
  }

  function SetMarker(): Json { CaseSet(MARKER, Obj(map[])) }

  function SetBelowMarker(value: string): Json { CaseSet(MARKER + "." + "x", Str(value)) }

  lemma CaseSetReads(path: string, value: Json)
    requires path != ""
    ensures ReadOperation(CaseSet(path, value)) == Some(Step(OnCase, Split(path), Put(value)))
  {
    hide Split;
    var op := CaseSet(path, value);
    assert Get(op, "target") == Some(Str("case")) && TextAt(op, "path") == Some(path) && TextAt(op, "op") == Some("set");
    assert Get(op, "value") == Some(value);
  }

  lemma MarkerReads()
    ensures ReadOperation(SetMarker()) == Some(Step(OnCase, [MARKER], Put(Obj(map[]))))
  {
    MarkerDotless();
    hide *;
    CaseSetReads(MARKER, Obj(map[]));
    SplitDotless(MARKER);
    SetMarkerIs();
  }

  lemma MarkerDotless()
    ensures Dotless(MARKER) && MARKER != ""
  {}

  lemma SetMarkerIs()
    ensures SetMarker() == CaseSet(MARKER, Obj(map[]))
  {}

  lemma BelowReads(value: string)
    ensures ReadOperation(SetBelowMarker(value)) == Some(Step(OnCase, [MARKER, "x"], Put(Str(value))))
  {
    CaseSetReads(MARKER + "." + "x", Str(value));
    SplitPair(MARKER, "x");
  }

  // ---------- A second list that tells the two sides apart ----------

  /** Every indexed document is an object, still in the Case or cut off. */
  ghost predicate Slotted(m: Machine) {
    m.tree.Obj? && forall id :: id in m.index ==> SlotFine(m.tree, m.index[id])
  }

  predicate SlotFine(tree: Json, slot: Slot) {
    match slot
    case Attached(at) => Documents(tree).Some? && at < |Documents(tree).value| && Documents(tree).value[at].Obj?
    case Detached(document) => document.Obj?
  }

  lemma IndexSlotted(tree: Json, index: map<string, Slot>)
    requires Documents(tree).Some? && IndexFrom(Documents(tree).value) == Some(index)
    ensures Slotted(Machine(tree, index))
  {
    forall id | id in index ensures SlotFine(tree, index[id]) {
      IndexPoints(Documents(tree).value, id);
    }
  }

  lemma StepSlotted(m: Machine, step: Step)
    requires Slotted(m) && |step.parts| > 0
    ensures Execute(m, step).Some? ==> Slotted(Execute(m, step).value)
  {
    match step.target
    case OnEvent =>
      EventSlotted(m, step);
    case OnCase =>
      CaseSlotted(m, step);
    case OnDocument(id) =>
      DocumentSlotted(m, step, id);
  }

  lemma EventSlotted(m: Machine, step: Step)
    requires Slotted(m) && |step.parts| > 0 && step.target.OnEvent?
    ensures Execute(m, step).Some? ==> Slotted(Execute(m, step).value)
  {
    hide EditAt;
    var next := Execute(m, step);
    if next.Some? {
      assert Documents(next.value.tree) == Documents(m.tree);
    }
  }

  lemma CaseSlotted(m: Machine, step: Step)
    requires Slotted(m) && |step.parts| > 0 && step.target.OnCase?
    ensures Execute(m, step).Some? ==> Slotted(Execute(m, step).value)
  {
    EditedMembers(m.tree, step.parts, step.edit, "documents");
    hide EditAt, Documents;
    var next := Execute(m, step);
    if next.Some? {
      if step.parts == ["documents"] {
        forall id | id in next.value.index ensures SlotFine(next.value.tree, next.value.index[id]) {
          assert SlotFine(m.tree, m.index[id]);
        }
      } else {
        forall id | id in next.value.index ensures SlotFine(next.value.tree, next.value.index[id]) {
          assert SlotFine(m.tree, m.index[id]);
          CaseKeepsDocuments(m, step);
        }
      }
    }
  }

  /** Only an edit of the list itself changes what the Case holds as its list of documents. */
  lemma CaseKeepsDocuments(m: Machine, step: Step)
    requires m.tree.Obj? && |step.parts| > 0 && step.target.OnCase? && step.parts != ["documents"]
    ensures Execute(m, step).Some? && Documents(m.tree).Some? && Documents(m.tree).value != [] ==>
      Documents(Execute(m, step).value.tree) == Documents(m.tree)
  {
    EditedMembers(m.tree, step.parts, step.edit, "documents");
  }

  lemma DocumentSlotted(m: Machine, step: Step, id: string)
    requires Slotted(m) && |step.parts| > 0 && step.target == OnDocument(id)
    ensures Execute(m, step).Some? ==> Slotted(Execute(m, step).value)
  {
    var next := Execute(m, step);
    if next.Some? && m.index[id].Attached? {
      var items, at := Documents(m.tree).value, m.index[id].at;
      EditedMembers(items[at], step.parts, step.edit, "");
      var edited := EditAt(items[at], step.parts, step.edit).value;
      assert Documents(next.value.tree) == Some(items[at := edited]);
      hide EditAt, Documents;
      forall other | other in m.index ensures SlotFine(next.value.tree, m.index[other]) {
        assert SlotFine(m.tree, m.index[other]);
      }
    } else if next.Some? {
      assert SlotFine(m.tree, m.index[id]);
      EditedMembers(m.index[id].document, step.parts, step.edit, "");
    }
  }

  lemma {:induction false} RunSlotted(m: Machine, operations: seq<Json>)
    requires Slotted(m)
    ensures Run(m, operations).Some? ==> Slotted(Run(m, operations).value)
    decreases |operations|
  {
    hide Execute, Slotted;
    if operations != [] {
      var step := ReadOperation(operations[0]);
      if step.Some? {
        StepSlotted(m, step.value);
        var next := Execute(m, step.value);
        if next.Some? {
          RunSlotted(next.value, operations[1..]);
        }
      }
    }
  }

  function Owned(document: Json, owner: string): Json
    requires document.Obj?
  {
    Obj(document.members["owner" := Str(owner)])
  }

  /** Setting one document's owner through the index. */
  lemma OwnerSet(m: Machine, id: string, owner: string, marker: string)
    requires Slotted(m)
    ensures id !in m.index ==> Finish(m, marker, [SetText(id, "owner", owner)]).None?
    ensures id in m.index && m.index[id].Detached? ==> Finish(m, marker, [SetText(id, "owner", owner)]) == Some(Marked(m.tree, marker))
    ensures id in m.index && m.index[id].Attached? ==>
      var items, at := Documents(m.tree), m.index[id].at;
      && SlotFine(m.tree, m.index[id])
      && Finish(m, marker, [SetText(id, "owner", owner)]) ==
        Some(Marked(WithDocuments(m.tree, items.value[at := Owned(items.value[at], owner)]), marker))
  {
    ReadsOwner(id, owner);
    var op, step := SetText(id, "owner", owner), Step(OnDocument(id), ["owner"], Put(Str(owner)));
    hide ReadOperation, SetText;
    assert [op][1..] == [];
    assert Run(m, [op]) == Execute(m, step) by {
      assert ReadExecute(m, op) == Execute(m, step);
    }
    if id in m.index {
      assert SlotFine(m.tree, m.index[id]);
    }
  }

  lemma MarkedDocuments(tree: Json, marker: string, items: seq<Json>)
    requires tree.Obj?
    ensures Documents(Marked(tree, marker)) == Documents(tree)
    ensures Documents(Marked(WithDocuments(tree, items), marker)) == Some(items)
  {}

  /** The indexes differ at `id`: setting that document's owner shows it. */
  lemma IndexTells(m: Machine, first: string, second: string, id: string) returns (b: seq<Json>)
    requires Slotted(m) && Documents(m.tree).Some? && IndexFrom(Documents(m.tree).value).Some?
    requires var index := IndexFrom(Documents(m.tree).value).value;
      (id in index && id in m.index) ==> index[id] != m.index[id]
    requires id in IndexFrom(Documents(m.tree).value).value || id in m.index
    ensures Finish(m, second, b) != Applied(Marked(m.tree, first), second, b)
    ensures b == [SetText(id, "owner", "a")] || b == [SetText(id, "owner", "b")]
  {
    var items := Documents(m.tree).value;
    var index := IndexFrom(items).value;
    var n := Machine(Marked(m.tree, first), index);
    MarkedDocuments(m.tree, first, items);
    IndexSlotted(n.tree, index);
    if id in index {
      IndexPoints(items, id);
    }
    var owner := if id in index && Get(items[index[id].at], "owner") == Some(Str("a")) then "b" else "a";
    b := [SetText(id, "owner", owner)];
    OwnerSet(m, id, owner, second);
    OwnerSet(n, id, owner, second);
    assert Begin(n.tree) == Some(n);
    assert Applied(n.tree, second, b) == Finish(n, second, b);
    if id in index && id in m.index {
      var at := index[id].at;
      assert SlotFine(n.tree, index[id]);
      var written := items[at := Owned(items[at], owner)];
      assert Get(Owned(items[at], owner), "owner") == Some(Str(owner));
      assert written[at] != items[at];
      MarkedDocuments(n.tree, second, written);
      if m.index[id].Detached? {
        MarkedDocuments(m.tree, second, items);
      } else {
        var other := m.index[id].at;
        MarkedDocuments(m.tree, second, items[other := Owned(items[other], owner)]);
      }
    }
  }

  /** Below an object marker an edit goes through, below the text that replaces it none does. */
  lemma MarkerTells(m: Machine, first: string, second: string, value: string)
    requires m.tree.Obj? && MarkerIsObject(m.tree)
    ensures Finish(m, second, [SetBelowMarker(value)]).Some?
    ensures Applied(Marked(m.tree, first), second, [SetBelowMarker(value)]).None?
  {
    BelowReads(value);
    MarkedAlike(m.tree, first);
    var op, step := SetBelowMarker(value), Step(OnCase, [MARKER, "x"], Put(Str(value)));
    var marked := Marked(m.tree, first);
    hide ReadOperation, SetBelowMarker, Marked, IndexFrom, Finish, Execute, Run, EditAt;
    FinishOne(m, second, op, step);
    BelowObject(m, step);
    var start := Begin(marked);
    if start.Some? {
      FinishOne(start.value, second, op, step);
      BelowText(start.value, step);
      assert Applied(marked, second, [op]) == Finish(start.value, second, [op]) by {
        AppliedFinishes(marked, second, [op]);
      }
    }
  }

  lemma AppliedFinishes(theCase: Json, id: string, b: seq<Json>)
    requires Begin(theCase).Some?
    ensures Applied(theCase, id, b) == Finish(Begin(theCase).value, id, b)
  {}

  lemma FinishOne(m: Machine, id: string, op: Json, step: Step)
    requires ReadOperation(op) == Some(step)
    ensures Finish(m, id, [op]) ==
      match Execute(m, step)
      case None => None
      case Some(next) => if next.tree.Obj? then Some(Marked(next.tree, id)) else None
  {
    hide Execute, Marked;
    assert [op][1..] == [];
    assert ReadExecute(m, op) == Execute(m, step);
    assert Run(m, [op]) == Execute(m, step);
  }

  lemma BelowObject(m: Machine, step: Step)
    requires m.tree.Obj? && MarkerIsObject(m.tree) && step.target.OnCase? && step.parts == [MARKER, "x"]
    ensures Execute(m, step).Some? && Execute(m, step).value.tree.Obj?
  {
    assert step.parts[1..] == ["x"];
    EditedMembers(m.tree, step.parts, step.edit, MARKER);
    EditedMembers(Get(m.tree, MARKER).value, ["x"], step.edit, MARKER);
  }

  lemma BelowText(m: Machine, step: Step)
    requires m.tree.Obj? && Get(m.tree, MARKER).Some? && Get(m.tree, MARKER).value.Str? && step.target.OnCase? && step.parts == [MARKER, "x"]
    ensures Execute(m, step).None?
  {
    assert step.parts[1..] == ["x"];
    EditedMembers(m.tree, step.parts, step.edit, MARKER);
  }

  lemma IndexIsGone(m: Machine, first: string, second: string)
    requires m.tree.Obj? && (Documents(m.tree).None? || IndexFrom(Documents(m.tree).value).None?)
    ensures Finish(m, second, []).Some? && Applied(Marked(m.tree, first), second, []).None?
  {
    MarkedAlike(m.tree, first);
  }

  /** Operations on documents only; what the code cannot read at all counts as any kind. */
  ghost predicate DocumentOnly(b: seq<Json>) {
    forall k :: 0 <= k < |b| && ReadOperation(b[k]).Some? ==> ReadOperation(b[k]).value.target.OnDocument?
  }

  /** No operation edits inside the mutation marker. */
  ghost predicate Quiet(b: seq<Json>) {
    forall k :: 0 <= k < |b| ==> !ReadsMarker(b[k])
  }

  lemma DocumentsAreQuiet(b: seq<Json>)
    requires DocumentOnly(b)
    ensures Quiet(b)
  {
    hide ReadOperation;
  }

  /** With a stale index some list of document operations fails to follow. */
  lemma StaleTells(theCase: Json, first: string, a: seq<Json>, second: string) returns (b: seq<Json>)
    requires After(theCase, a).Some? && !Current(After(theCase, a).value)
    ensures !RunsTogether(theCase, first, a, second, b) && DocumentOnly(b) && |b| <= 1
  {
    var start, m := Begin(theCase).value, After(theCase, a).value;
    StartsCurrent(theCase);
    IndexSlotted(theCase, start.index);
    RunSlotted(start, a);
    hide RunsTogether, Run, Begin, ReadOperation, After, Finish, Slotted, Applied, SetText;
    b := [];
    if Documents(m.tree).None? || IndexFrom(Documents(m.tree).value).None? {
      SlottedIsObject(m);
      IndexIsGone(m, first, second);
    } else {
      var index := IndexFrom(Documents(m.tree).value).value;
      SlottedIsObject(m);
      var id := MapsDiffer(index, m.index);
      b := IndexTells(m, first, second, id);
      ReadsOwner(id, "a");
      ReadsOwner(id, "b");
    }
    Reduced(theCase, first, a, second, b);
  }

  lemma SlottedIsObject(m: Machine)
    requires Slotted(m)
    ensures m.tree.Obj?
  {}

  ghost predicate Differs(x: map<string, Slot>, y: map<string, Slot>, id: string) {
    (id in x || id in y) && (id in x && id in y ==> x[id] != y[id])
  }

  lemma SameMaps(x: map<string, Slot>, y: map<string, Slot>)
    requires forall id :: !Differs(x, y, id)
    ensures x == y
  {
    forall id ensures id in x <==> id in y {
      assert !Differs(x, y, id);
    }
    forall id | id in x ensures x[id] == y[id] {
      assert !Differs(x, y, id);
    }
  }

  lemma MapsDiffer(x: map<string, Slot>, y: map<string, Slot>) returns (id: string)
    requires x != y
    ensures (id in x || id in y) && (id in x && id in y ==> x[id] != y[id])
  {
    if forall id' :: !Differs(x, y, id') {
      SameMaps(x, y);
    }
    id :| Differs(x, y, id);
  }

  // ---------- The bound on the number of operations ----------

  lemma MutatedBy(theCase: Json, id: string, operations: seq<Json>)
    ensures Mutated(theCase, MutationOf(id, operations)) ==
      if id == "" || |operations| > MAX_MUTATION_OPERATIONS then None else Applied(theCase, id, operations)
  {
    hide Applied;
    assert |"mutation_id"| == 11 && |"operations"| == 10;
    assert TextAt(MutationOf(id, operations), "mutation_id") == Some(id);
    assert Get(MutationOf(id, operations), "operations") == Some(Arr(operations));
  }

  predicate Fits(a: seq<Json>, b: seq<Json>) {
    |a| + |b| <= MAX_MUTATION_OPERATIONS
  }

  lemma FittingTogether(theCase: Json, first: string, a: seq<Json>, second: string, b: seq<Json>)
    requires first != "" && second != "" && Fits(a, b)
    ensures ComposesWith(theCase, first, a, second, b) <==> RunsTogether(theCase, first, a, second, b)
  {
    hide Mutated, MutationOf, Applied;
    MutatedBy(theCase, second, a + b);
    MutatedBy(theCase, first, a);
    if Applied(theCase, first, a).Some? {
      MutatedBy(Applied(theCase, first, a).value, second, b);
    }
  }

  /** Lists too long together compose only when applying one after the other raises as well. */
  lemma TooLongTogether(theCase: Json, first: string, a: seq<Json>, second: string, b: seq<Json>)
    requires first != "" && second != "" && !Fits(a, b)
    ensures ComposesWith(theCase, first, a, second, b) <==>
      || |a| > MAX_MUTATION_OPERATIONS || |b| > MAX_MUTATION_OPERATIONS || Applied(theCase, first, a).None?
      || Applied(Applied(theCase, first, a).value, second, b).None?
  {
    hide Mutated, MutationOf, Applied;
    MutatedBy(theCase, second, a + b);
    MutatedBy(theCase, first, a);
    if Applied(theCase, first, a).Some? {
      MutatedBy(Applied(theCase, first, a).value, second, b);
    }
  }

  // ---------- The exact condition ----------

  /** After `a` the early index is the one the documents then give, and the mutation marker is not an object. */
  ghost predicate Settled(theCase: Json, a: seq<Json>) {
    After(theCase, a).Some? ==> Current(After(theCase, a).value) && !MarkerIsObject(After(theCase, a).value.tree)
  }

  ghost predicate IndexSettled(theCase: Json, a: seq<Json>) {
    After(theCase, a).Some? ==> Current(After(theCase, a).value)
  }

  /**
    * The exact condition among second lists that keep the concatenation within its bound: `a` composes with all of
    * them if and only if it leaves the Case settled. The longest lists leave no room to tell.
    */
  lemma ComposesIff(theCase: Json, first: string, a: seq<Json>, second: string)
    requires first != "" && second != ""
    ensures Settled(theCase, a) ==> forall b | Fits(a, b) :: ComposesWith(theCase, first, a, second, b)
    ensures |a| < MAX_MUTATION_OPERATIONS ==>
      ((forall b | Fits(a, b) :: ComposesWith(theCase, first, a, second, b)) <==> Settled(theCase, a))
  {
    hide ComposesWith, RunsTogether, Current, After;
    if Settled(theCase, a) {
      forall b | Fits(a, b) ensures ComposesWith(theCase, first, a, second, b) {
        CurrentComposes(theCase, first, a, second, b);
        FittingTogether(theCase, first, a, second, b);
      }
    } else {
      var b := Unsettled(theCase, first, a, second);
      if |a| < MAX_MUTATION_OPERATIONS {
        FittingTogether(theCase, first, a, second, b);
      }
    }
  }

  lemma Unsettled(theCase: Json, first: string, a: seq<Json>, second: string) returns (b: seq<Json>)
    requires !Settled(theCase, a)
    ensures |b| <= 1 && !RunsTogether(theCase, first, a, second, b)
  {
    hide RunsTogether, Current, After;
    if !Current(After(theCase, a).value) {
      b := StaleTells(theCase, first, a, second);
    } else {
      b := [SetBelowMarker("")];
      Reduced(theCase, first, a, second, b);
      MarkerTells(After(theCase, a).value, first, second, "");
    }
  }

  /** Among second lists that leave the marker's inside alone, and among lists of document operations, the index
      alone decides. */
  lemma ComposesBesideMarker(theCase: Json, first: string, a: seq<Json>, second: string)
    requires first != "" && second != ""
    ensures IndexSettled(theCase, a) ==> forall b | Fits(a, b) && Quiet(b) :: ComposesWith(theCase, first, a, second, b)
    ensures |a| < MAX_MUTATION_OPERATIONS ==>
      && ((forall b | Fits(a, b) && Quiet(b) :: ComposesWith(theCase, first, a, second, b)) <==> IndexSettled(theCase, a))
      && ((forall b | Fits(a, b) && DocumentOnly(b) :: ComposesWith(theCase, first, a, second, b)) <==> IndexSettled(theCase, a))
  {
    hide ComposesWith, RunsTogether, Current, After, ReadsMarker, DocumentOnly;
    if IndexSettled(theCase, a) {
      forall b | Fits(a, b) && Quiet(b) ensures ComposesWith(theCase, first, a, second, b) {
        CurrentComposes(theCase, first, a, second, b);
        FittingTogether(theCase, first, a, second, b);
      }
      forall b | Fits(a, b) && DocumentOnly(b) ensures ComposesWith(theCase, first, a, second, b) {
        DocumentsAreQuiet(b);
      }
    } else {
      var b := StaleTells(theCase, first, a, second);
      DocumentsAreQuiet(b);
      if |a| < MAX_MUTATION_OPERATIONS {
        FittingTogether(theCase, first, a, second, b);
      }
    }
  }

  // ---------- Lists too long together ----------

  function Note(): Json { CaseSet("note", Str("")) }

  function Notes(n: nat): (r: seq<Json>)
    ensures |r| == n && forall k :: 0 <= k < n ==> r[k] == Note()
  {
    seq(n, k => Note())
  }

  lemma NoteReads()
    ensures ReadOperation(Note()) == Some(Step(OnCase, ["note"], Put(Str(""))))
  {
    NoteDotless();
    hide *;
    CaseSetReads("note", Str(""));
    SplitDotless("note");
    NoteIs();
  }

  lemma NoteDotless()
    ensures Dotless("note") && "note" != ""
  {}

  lemma NoteIs()
    ensures Note() == CaseSet("note", Str(""))
  {}

  lemma NoteHarmless()
    ensures Harmless(Note()) && !ReadsMarker(Note())
  {
    NoteReads();
    assert "note" != "documents" && "note" != MARKER by {
      assert |"note"| == 4 && |"documents"| == 9 && |MARKER| == 15;
    }
  }

  lemma {:induction false} NotesRun(m: Machine, n: nat)
    requires m.tree.Obj?
    ensures Run(m, Notes(n)).Some? && Run(m, Notes(n)).value.tree.Obj?
    decreases n
  {
    if n > 0 {
      NoteReads();
      var op := Note();
      var next := Machine(Obj(m.tree.members["note" := Str("")]), m.index);
      assert ReadExecute(m, op) == Some(next);
      hide ReadOperation, Execute, Note;
      assert Notes(n)[0] == op && Notes(n)[1..] == Notes(n - 1);
      NotesRun(next, n - 1);
    }
  }

  lemma NotesApply(theCase: Json, id: string, n: nat)
    requires Begin(theCase).Some?
    ensures Applied(theCase, id, Notes(n)).Some?
  {
    hide IndexFrom, Run;
    NotesRun(Begin(theCase).value, n);
  }

  lemma DocumentsBegin(tree: Json)
    ensures Begin(tree).Some? <==> Documents(tree).Some? && IndexFrom(Documents(tree).value).Some?
  {}

  /** Any two lists of harmless operations, each within the bound, but not together: one after the other they apply
      to every Case, their concatenation to none. */
  lemma LongDoesNotCompose(theCase: Json, first: string, m: nat, second: string, n: nat)
    requires Begin(theCase).Some? && first != "" && second != ""
    requires m <= MAX_MUTATION_OPERATIONS && n <= MAX_MUTATION_OPERATIONS && m + n > MAX_MUTATION_OPERATIONS
    ensures var a, b := Notes(m), Notes(n);
      && (forall k :: 0 <= k < m ==> Harmless(a[k])) && Quiet(b)
      && Mutated(theCase, MutationOf(first, a)).Some?
      && Mutated(Mutated(theCase, MutationOf(first, a)).value, MutationOf(second, b)).Some?
      && Mutated(theCase, MutationOf(second, a + b)).None?
  {
    var a, b := Notes(m), Notes(n);
    NoteHarmless();
    NotesApply(theCase, first, m);
    StillBegins(theCase, first, m);
    var between := Applied(theCase, first, a).value;
    NotesApply(between, second, n);
    hide Mutated, MutationOf, Applied, Harmless, ReadsMarker, Begin, Note;
    MutatedBy(theCase, first, a);
    MutatedBy(between, second, b);
    MutatedBy(theCase, second, a + b);
  }

  lemma StillBegins(theCase: Json, id: string, n: nat)
    requires Begin(theCase).Some? && Applied(theCase, id, Notes(n)).Some?
    ensures Begin(Applied(theCase, id, Notes(n)).value).Some?
  {
    var start := Begin(theCase).value;
    StartsCurrent(theCase);
    NoteHarmless();
    RunHarmless(start, Notes(n));
    hide Run, Note, Harmless, ReadsMarker;
    var done := Run(start, Notes(n)).value;
    MarkedAlike(done.tree, id);
    DocumentsBegin(Marked(done.tree, id));
  }

  /** Over all second lists, however long: only an `a` that never applies composes with every one of them, or an empty
      one before a Case whose marker is no object. */
  lemma EveryListIff(theCase: Json, first: string, a: seq<Json>, second: string)
    requires first != "" && second != ""
    ensures (forall b :: ComposesWith(theCase, first, a, second, b)) <==>
      |a| > MAX_MUTATION_OPERATIONS || After(theCase, a).None? || (a == [] && !MarkerIsObject(theCase))
  {
    hide ComposesWith, RunsTogether, Current, After, Applied, Marked;
    if |a| > MAX_MUTATION_OPERATIONS {
      forall b ensures ComposesWith(theCase, first, a, second, b) {
        TooLongTogether(theCase, first, a, second, b);
      }
    } else if After(theCase, a).None? {
      forall b ensures ComposesWith(theCase, first, a, second, b) {
        if Fits(a, b) {
          Reduced(theCase, first, a, second, b);
          FittingTogether(theCase, first, a, second, b);
        } else {
          NeverApplies(theCase, first, a);
          TooLongTogether(theCase, first, a, second, b);
        }
      }
    } else if a == [] {
      NothingRun(theCase);
      if !MarkerIsObject(theCase) {
        forall b ensures ComposesWith(theCase, first, a, second, b) {
          if Fits(a, b) {
            CurrentComposes(theCase, first, a, second, b);
            FittingTogether(theCase, first, a, second, b);
          } else {
            TooLongTogether(theCase, first, a, second, b);
          }
        }
      } else {
        ComposesIff(theCase, first, a, second);
      }
    } else {
      var b := LongFailure(theCase, first, a, second);
    }
  }

  lemma NeverApplies(theCase: Json, id: string, a: seq<Json>)
    ensures After(theCase, a).None? ==> Applied(theCase, id, a).None?
  {}

  lemma NothingRun(theCase: Json)
    ensures After(theCase, []).Some? ==> After(theCase, []).value.tree == theCase && Current(After(theCase, []).value)
  {
    if Begin(theCase).Some? {
      StartsCurrent(theCase);
    }
  }

  lemma LongFailure(theCase: Json, first: string, a: seq<Json>, second: string) returns (b: seq<Json>)
    requires first != "" && second != "" && 0 < |a| <= MAX_MUTATION_OPERATIONS && After(theCase, a).Some?
    ensures !ComposesWith(theCase, first, a, second, b)
  {
    Reduced(theCase, first, a, second, []);
    var m := After(theCase, a).value;
    var marked := Marked(m.tree, first);
    MarkedAlike(m.tree, first);
    DocumentsBegin(marked);
    hide ComposesWith, After, Applied, IndexFrom, Finish, Marked, Begin;
    if Begin(marked).None? {
      b := [];
      IndexIsGone(m, first, second);
      FittingTogether(theCase, first, a, second, b);
    } else {
      b := Notes(MAX_MUTATION_OPERATIONS);
      NotesApply(marked, second, MAX_MUTATION_OPERATIONS);
      TooLongTogether(theCase, first, a, second, b);
    }
  }

  // ---------- Lists that keep the condition ----------

  /** An operation whose path's root is no document's identifier, nor the Case's documents or marker. */
  predicate Harmless(op: Json) {
    match ReadOperation(op)
    case None => true
    case Some(step) =>
      match step.target
      case OnDocument(_) => step.parts[0] != "document_id"
      case OnEvent => true
      case OnCase => step.parts[0] != "documents" && step.parts[0] != MARKER
  }

  lemma StepHarmless(m: Machine, op: Json)
    requires Current(m) && Harmless(op) && ReadExecute(m, op).Some?
    ensures Current(ReadExecute(m, op).value) && Get(ReadExecute(m, op).value.tree, MARKER) == Get(m.tree, MARKER)
  {
    var step := ReadOperation(op).value;
    hide ReadOperation, IndexFrom, EditAt, Documents;
    var next := Execute(m, step).value;
    match step.target
    case OnDocument(_) =>
      StepKeepsCurrent(m, step);
    case OnEvent =>
      SameDocumentList(m.tree, next.tree);
    case OnCase =>
      EditedMembers(m.tree, step.parts, step.edit, "documents");
      EditedMembers(m.tree, step.parts, step.edit, MARKER);
      SameDocumentList(m.tree, next.tree);
  }

  lemma SameDocumentList(t: Json, u: Json)
    requires Get(t, "documents") == Get(u, "documents")
    ensures Documents(t) == Documents(u)
  {}

  lemma {:induction false} RunHarmless(m: Machine, operations: seq<Json>)
    requires Current(m) && forall k :: 0 <= k < |operations| ==> Harmless(operations[k])
    ensures Run(m, operations).Some? ==>
      Current(Run(m, operations).value) && Get(Run(m, operations).value.tree, MARKER) == Get(m.tree, MARKER)
    decreases |operations|
  {
    hide Current, ReadExecute, Harmless;
    if operations != [] {
      var next := ReadExecute(m, operations[0]);
      if next.Some? {
        StepHarmless(m, operations[0]);
        RunHarmless(next.value, operations[1..]);
      }
    }
  }

  /** A list of harmless operations composes with every second list within the bound, unless the Case's own marker is
      an object that the second list edits inside. */
  lemma Composes(theCase: Json, first: string, a: seq<Json>, second: string, b: seq<Json>)
    requires first != "" && second != "" && Fits(a, b)
    requires forall k :: 0 <= k < |a| ==> Harmless(a[k])
    requires !MarkerIsObject(theCase) || Quiet(b)
    ensures ComposesWith(theCase, first, a, second, b)
  {
    if Begin(theCase).Some? {
      StartsCurrent(theCase);
      RunHarmless(Begin(theCase).value, a);
    }
    hide ComposesWith, RunsTogether, Current, Run, Harmless, ReadsMarker;
    CurrentComposes(theCase, first, a, second, b);
    FittingTogether(theCase, first, a, second, b);
  }

  // ---------- Inputs that do not compose ----------

  /** A list that turns the marker into an object does not compose: the marker it leaves behind is text again. */
  lemma MarkerDoesNotCompose(theCase: Json, first: string, second: string, value: string)
    requires Begin(theCase).Some? && theCase.Obj? && first != "" && second != ""
    ensures Fails(theCase, first, [SetMarker()], second, [SetBelowMarker(value)], false)
  {
    MarkerRuns(theCase, first, second, value);
    hide Mutated, MutationOf, Applied, SetMarker, SetBelowMarker, Begin;
    MutatedBy(theCase, first, [SetMarker()]);
    MutatedBy(theCase, second, [SetMarker()] + [SetBelowMarker(value)]);
    MutatedBy(Applied(theCase, first, [SetMarker()]).value, second, [SetBelowMarker(value)]);
  }

  /** `a` applies; then exactly one of the two ways to go on does: the concatenation if not `apart`. */
  ghost predicate Fails(theCase: Json, first: string, a: seq<Json>, second: string, b: seq<Json>, apart: bool) {
    && Mutated(theCase, MutationOf(first, a)).Some?
    && (Mutated(theCase, MutationOf(second, a + b)).Some? <==> !apart)
    && (Mutated(Mutated(theCase, MutationOf(first, a)).value, MutationOf(second, b)).Some? <==> apart)
  }

  lemma MarkerRuns(theCase: Json, first: string, second: string, value: string)
    requires Begin(theCase).Some? && theCase.Obj?
    ensures var a, b := [SetMarker()], [SetBelowMarker(value)];
      && Applied(theCase, first, a).Some? && Applied(theCase, second, a + b).Some?
      && Applied(Applied(theCase, first, a).value, second, b).None?
  {
    MarkerReads();
    var a, op := [SetMarker()], SetMarker();
    var start := Begin(theCase).value;
    hide ReadOperation, SetMarker, SetBelowMarker, IndexFrom, Marked;
    assert a[1..] == [];
    EditedMembers(theCase, [MARKER], Put(Obj(map[])), MARKER);
    assert ReadExecute(start, op) == Execute(start, Step(OnCase, [MARKER], Put(Obj(map[]))));
    Reduced(theCase, first, a, second, [SetBelowMarker(value)]);
    MarkerTells(After(theCase, a).value, first, second, value);
  }

  /** A Case of one document. */
  function Single(id: string): Json {
    Obj(map["documents" := Arr([Named(id)])])
  }

  lemma SingleBegins(tree: Json, doc: Json, id: string)
    requires tree.Obj? && Documents(tree) == Some([doc]) && Get(doc, "document_id") == Some(Str(id))
    ensures Begin(tree) == Some(Machine(tree, map[id := Attached(0)]))
  {
    assert [doc][..0] == [];
    assert IndexFrom([]) == Some(map[]);
  }

  /** A list that renames a document does not compose: after it `second` knows the new name, but the
      concatenation still looks documents up under the old one. */
  lemma RenameDoesNotCompose(oldId: string, newId: string, value: string)
    requires oldId != newId
    ensures Fails(Single(oldId), "first", [SetText(oldId, "document_id", newId)], "second", [SetText(newId, "owner", value)], true)
  {
    RenameRuns(oldId, newId, value);
    var a, b := [SetText(oldId, "document_id", newId)], [SetText(newId, "owner", value)];
    assert |"first"| == 5 && |"second"| == 6;
    hide Mutated, MutationOf, Applied, SetText, Single;
    MutatedBy(Single(oldId), "first", a);
    MutatedBy(Single(oldId), "second", a + b);
    MutatedBy(Applied(Single(oldId), "first", a).value, "second", b);
  }

  lemma RenameRuns(oldId: string, newId: string, value: string)
    requires oldId != newId
    ensures var a, b := [SetText(oldId, "document_id", newId)], [SetText(newId, "owner", value)];
      && Applied(Single(oldId), "first", a).Some? && Applied(Applied(Single(oldId), "first", a).value, "second", b).Some?
      && Applied(Single(oldId), "second", a + b).None?
  {
    hide *;
    var start, next := Renames(oldId, newId);
    ReadsOwner(newId, value);
    var renaming, use := SetText(oldId, "document_id", newId), SetText(newId, "owner", value);
    OneStep(start, renaming, next);
    UnknownStep(next, use, newId, ["owner"], Put(Str(value)));
    UsesNewName(next.tree, Named(newId), newId, use, value);
    Diverges(Single(oldId), start, next, renaming, use);
  }

  function Named(id: string): Json {
    Obj(map["document_id" := Str(id)])
  }

  lemma ReadsRename(id: string, value: string)
    ensures ReadOperation(SetText(id, "document_id", value)) == Some(Step(OnDocument(id), ["document_id"], Put(Str(value))))
  {
    SetTextReads(id, "document_id", value);
  }

  lemma NamedFacts(id: string, value: string)
    ensures Get(Named(id), "document_id") == Some(Str(id))
    ensures EditAt(Named(id), ["document_id"], Put(Str(value))) == Some(Named(value))
    ensures Single(id).Obj? && Documents(Single(id)) == Some([Named(id)])
  {
    assert map["document_id" := Str(id)]["document_id" := Str(value)] == map["document_id" := Str(value)];
  }

  lemma Diverges(theCase: Json, start: Machine, next: Machine, x: Json, y: Json)
    requires Begin(theCase) == Some(start) && Run(start, [x]) == Some(next) && next.tree.Obj?
    requires Run(next, [y]).None? && Applied(Marked(next.tree, "first"), "second", [y]).Some?
    ensures Applied(theCase, "first", [x]).Some? && Applied(Applied(theCase, "first", [x]).value, "second", [y]).Some?
    ensures Applied(theCase, "second", [x] + [y]).None?
  {
    RunConcat(start, [x], [y]);
    hide Run, Marked;
    assert Applied(theCase, "first", [x]) == Some(Marked(next.tree, "first"));
  }

  lemma UnknownStep(m: Machine, op: Json, id: string, parts: seq<string>, edit: Edit)
    requires |parts| > 0 && ReadOperation(op) == Some(Step(OnDocument(id), parts, edit)) && id !in m.index
    ensures Run(m, [op]).None?
  {}

  lemma Renames(oldId: string, newId: string) returns (start: Machine, next: Machine)
    requires oldId != newId
    ensures Begin(Single(oldId)) == Some(start)
    ensures ReadExecute(start, SetText(oldId, "document_id", newId)) == Some(next)
    ensures next.tree.Obj? && Documents(next.tree) == Some([Named(newId)]) && newId !in next.index
  {
    ReadsRename(oldId, newId);
    NamedFacts(oldId, newId);
    hide ReadOperation, SetText, Single, Named, EditAt, IndexFrom, Execute, Begin;
    start := Machine(Single(oldId), map[oldId := Attached(0)]);
    SingleBegins(Single(oldId), Named(oldId), oldId);
    SingleStep(start, oldId, Named(oldId), ["document_id"], Put(Str(newId)), Named(newId));
    next := Machine(WithDocuments(start.tree, [Named(newId)]), start.index);
  }

  lemma SingleStep(m: Machine, id: string, doc: Json, parts: seq<string>, edit: Edit, edited: Json)
    requires m.tree.Obj? && Documents(m.tree) == Some([doc]) && id in m.index && m.index[id] == Attached(0)
    requires |parts| > 0 && EditAt(doc, parts, edit) == Some(edited)
    ensures Execute(m, Step(OnDocument(id), parts, edit)) == Some(Machine(WithDocuments(m.tree, [edited]), m.index))
  {
    assert [doc][0 := edited] == [edited];
  }

  lemma OneStep(m: Machine, op: Json, next: Machine)
    requires ReadExecute(m, op) == Some(next)
    ensures Run(m, [op]) == Some(next)
  {
    assert [op][1..] == [];
  }

  lemma UsesNewName(tree: Json, renamed: Json, id: string, use: Json, value: string)
    requires tree.Obj? && Documents(tree) == Some([renamed]) && renamed == Named(id)
    requires ReadOperation(use) == Some(Step(OnDocument(id), ["owner"], Put(Str(value))))
    ensures Applied(Marked(tree, "first"), "second", [use]).Some?
  {
    var marked := Marked(tree, "first");
    assert Documents(marked) == Documents(tree);
    SingleBegins(marked, renamed, id);
    var m := Machine(marked, map[id := Attached(0)]);
    var edited := Obj(renamed.members["owner" := Str(value)]);
    assert EditAt(renamed, ["owner"], Put(Str(value))) == Some(edited);
    hide ReadOperation, EditAt, IndexFrom, Begin;
    OneStep(m, use, Machine(WithDocuments(marked, [renamed][0 := edited]), m.index));
  }
}

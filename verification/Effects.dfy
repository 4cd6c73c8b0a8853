/** What a mutation does, read off the Cases before and after it: the last write to a path is what the path then
    holds, and every other path holds what it did. */
module Effects {
  import opened Json
  import opened Mutations
  import opened Composition

  // ---------- Reading a path ----------

  /** What a walk by member names finds. */
  function Lookup(j: Json, path: seq<string>): Option<Json>
    decreases |path|
  {
    if path == [] then Some(j)
    else if j.Obj? && path[0] in j.members then Lookup(j.members[path[0]], path[1..])
    else None
  }

  /** Every object on the way to the last name is there. */
  ghost predicate Walkable(j: Json, path: seq<string>) {
    forall i :: 0 <= i < |path| ==> Lookup(j, path[..i]).Some? && Lookup(j, path[..i]).value.Obj?
  }

  /** One path runs through the other. */
  predicate Meets(p: seq<string>, q: seq<string>) {
    p <= q || q <= p
  }

  lemma MeetsBelow(p: seq<string>, q: seq<string>)
    requires p != [] && q != [] && p[0] == q[0]
    ensures Meets(p, q) <==> Meets(p[1..], q[1..])
  {
    assert p == [p[0]] + p[1..] && q == [q[0]] + q[1..];
  }

  /** What a path holds once `edit` was made there. */
  function Left(edit: Edit): Option<Json> {
    if edit.Put? then Some(edit.value) else None
  }

  lemma WalkStep(j: Json, path: seq<string>)
    requires |path| > 1
    ensures Walkable(j, path) <==> j.Obj? && path[0] in j.members && Walkable(j.members[path[0]], path[1..])
  {
    if Walkable(j, path) {
      assert path[..0] == [] && Lookup(j, path[..0]) == Some(j);
      assert Lookup(j, path[..1]).Some?;
      assert path[..1][1..] == [];
      forall i | 0 <= i < |path| - 1
        ensures Lookup(j.members[path[0]], path[1..][..i]).Some? && Lookup(j.members[path[0]], path[1..][..i]).value.Obj?
      {
        assert path[..i + 1][1..] == path[1..][..i];
        assert Lookup(j, path[..i + 1]).Some?;
      }
    }
    if j.Obj? && path[0] in j.members && Walkable(j.members[path[0]], path[1..]) {
      forall i | 0 <= i < |path| ensures Lookup(j, path[..i]).Some? && Lookup(j, path[..i]).value.Obj? {
        if i > 0 {
          assert path[..i][1..] == path[1..][..i - 1];
        }
      }
    }
  }

  lemma WalkOne(j: Json, path: seq<string>)
    requires |path| == 1
    ensures Walkable(j, path) <==> j.Obj?
  {
    assert path[..0] == [];
    assert Lookup(j, path[..0]) == Some(j);
  }

  /** An edit raises exactly when the walk meets a missing member or something that is no object. */
  lemma {:induction false} EditRaises(j: Json, path: seq<string>, edit: Edit)
    requires |path| > 0
    ensures EditAt(j, path, edit).Some? <==> Walkable(j, path)
    decreases |path|
  {
    hide Walkable;
    if |path| == 1 {
      WalkOne(j, path);
    } else {
      WalkStep(j, path);
      if j.Obj? && path[0] in j.members {
        EditRaises(j.members[path[0]], path[1..], edit);
      }
    }
  }

  /** After an edit the path holds what was put there, or nothing. */
  lemma {:induction false} EditLeaves(j: Json, path: seq<string>, edit: Edit)
    requires |path| > 0 && EditAt(j, path, edit).Some?
    ensures Lookup(EditAt(j, path, edit).value, path) == Left(edit)
    decreases |path|
  {
    if |path| == 1 {
      assert path[1..] == [];
    } else {
      EditLeaves(j.members[path[0]], path[1..], edit);
    }
  }

  /** Every path that does not run through it holds what it did. */
  lemma {:induction false} EditKeeps(j: Json, path: seq<string>, edit: Edit, other: seq<string>)
    requires |path| > 0 && EditAt(j, path, edit).Some? && !Meets(path, other)
    ensures Lookup(EditAt(j, path, edit).value, other) == Lookup(j, other)
    decreases |path|
  {
    assert other != [];
    if other[0] == path[0] {
      MeetsBelow(path, other);
      EditKeeps(j.members[path[0]], path[1..], edit, other[1..]);
    }
  }

  // ---------- Places of a Case ----------

  /** A path of the Case, or a path of an indexed document. */
  datatype Place = InCase(path: seq<string>) | InDocument(id: string, path: seq<string>)

  function PlaceOf(step: Step): Place {
    match step.target
    case OnEvent => InCase(["event"] + step.parts)
    case OnCase => InCase(step.parts)
    case OnDocument(id) => InDocument(id, step.parts)
  }

  function DocumentAt(m: Machine, id: string): Option<Json> {
    if id !in m.index then None
    else
      match m.index[id]
      case Detached(document) => Some(document)
      case Attached(at) =>
        var items := Documents(m.tree);
        if items.Some? && at < |items.value| then Some(items.value[at]) else None
  }

  function ReadAt(m: Machine, place: Place): Option<Json> {
    match place
    case InCase(path) => Lookup(m.tree, path)
    case InDocument(id, path) =>
      match DocumentAt(m, id)
      case None => None
      case Some(document) => Lookup(document, path)
  }

  ghost predicate Writable(m: Machine, place: Place) {
    match place
    case InCase(path) => Walkable(m.tree, path)
    case InDocument(id, path) => DocumentAt(m, id).Some? && Walkable(DocumentAt(m, id).value, path)
  }

  /** Writing one place can change the other. */
  predicate Touches(written: Place, read: Place) {
    match written
    case InCase(p) => read.InCase? && Meets(p, read.path)
    case InDocument(id, p) =>
      match read
      case InCase(q) => q <= ["documents"]
      case InDocument(other, q) => id == other && Meets(p, q)
  }

  // ---------- One step ----------

  /** Two identifiers never stand for one document. */
  ghost predicate SlotsApart(m: Machine) {
    forall i, j :: i in m.index && j in m.index && i != j && m.index[i].Attached? && m.index[j].Attached? ==> m.index[i].at != m.index[j].at
  }

  ghost predicate Ready(m: Machine) {
    Slotted(m) && SlotsApart(m)
  }

  /** An event edit is an edit of the Case below its event. */
  lemma EventIsBelowCase(m: Machine, step: Step)
    requires m.tree.Obj? && |step.parts| > 0 && step.target.OnEvent?
    ensures Execute(m, step).Some? <==> EditAt(m.tree, ["event"] + step.parts, step.edit).Some?
    ensures Execute(m, step).Some? ==>
      Execute(m, step).value == Machine(EditAt(m.tree, ["event"] + step.parts, step.edit).value, m.index)
  {
    var path := ["event"] + step.parts;
    assert path[0] == "event" && path[1..] == step.parts;
  }

  lemma StepRaises(m: Machine, step: Step)
    requires Slotted(m) && |step.parts| > 0
    ensures Execute(m, step).Some? <==> Writable(m, PlaceOf(step))
  {
    hide EditAt, Walkable, Documents;
    match step.target
    case OnEvent =>
      EventIsBelowCase(m, step);
      EditRaises(m.tree, ["event"] + step.parts, step.edit);
    case OnCase =>
      EditRaises(m.tree, step.parts, step.edit);
    case OnDocument(id) =>
      if id in m.index {
        assert SlotFine(m.tree, m.index[id]);
        EditRaises(DocumentAt(m, id).value, step.parts, step.edit);
      }
  }

  lemma StepLeaves(m: Machine, step: Step)
    requires Slotted(m) && |step.parts| > 0 && Execute(m, step).Some?
    ensures ReadAt(Execute(m, step).value, PlaceOf(step)) == Left(step.edit)
  {
    hide EditAt;
    match step.target
    case OnEvent =>
      EventIsBelowCase(m, step);
      EditLeaves(m.tree, ["event"] + step.parts, step.edit);
    case OnCase =>
      EditLeaves(m.tree, step.parts, step.edit);
    case OnDocument(id) =>
      assert SlotFine(m.tree, m.index[id]);
      EditLeaves(DocumentAt(m, id).value, step.parts, step.edit);
      StoresDocument(m, step, id);
  }

  /** A document edit stores the edited document where the index finds it. */
  lemma StoresDocument(m: Machine, step: Step, id: string)
    requires Slotted(m) && |step.parts| > 0 && step.target == OnDocument(id) && Execute(m, step).Some?
    ensures id in m.index && DocumentAt(m, id).Some? && EditAt(DocumentAt(m, id).value, step.parts, step.edit).Some?
    ensures DocumentAt(Execute(m, step).value, id) == EditAt(DocumentAt(m, id).value, step.parts, step.edit)
  {
    hide EditAt;
    assert SlotFine(m.tree, m.index[id]);
    if m.index[id].Attached? {
      var items, at := Documents(m.tree).value, m.index[id].at;
      var edited := EditAt(items[at], step.parts, step.edit).value;
      assert Documents(WithDocuments(m.tree, items[at := edited])) == Some(items[at := edited]);
    }
  }

  lemma StepKeeps(m: Machine, step: Step, place: Place)
    requires Ready(m) && |step.parts| > 0 && Execute(m, step).Some? && !Touches(PlaceOf(step), place)
    ensures ReadAt(Execute(m, step).value, place) == ReadAt(m, place)
  {
    hide EditAt, Lookup, Documents, Slotted;
    match step.target
    case OnEvent =>
      TreeIsObject(m);
      EventIsBelowCase(m, step);
      CaseWriteKeeps(m, Execute(m, step).value, ["event"] + step.parts, step.edit, place);
    case OnCase =>
      if step.parts == ["documents"] {
        ListWriteKeeps(m, step, place);
      } else {
        CaseWriteKeeps(m, Execute(m, step).value, step.parts, step.edit, place);
      }
    case OnDocument(id) =>
      DocumentWriteKeeps(m, step, id, place);
  }

  lemma TreeIsObject(m: Machine)
    requires Slotted(m)
    ensures m.tree.Obj?
  {}

  lemma CaseWriteKeeps(m: Machine, next: Machine, path: seq<string>, edit: Edit, place: Place)
    requires Slotted(m) && |path| > 0 && path != ["documents"] && EditAt(m.tree, path, edit) == Some(next.tree) && next.index == m.index
    requires place.InCase? ==> !Meets(path, place.path)
    ensures ReadAt(next, place) == ReadAt(m, place)
  {
    match place
    case InCase(q) =>
      hide EditAt;
      EditKeeps(m.tree, path, edit, q);
    case InDocument(id, q) =>
      if id in m.index && m.index[id].Attached? {
        assert SlotFine(m.tree, m.index[id]);
        EditedMembers(m.tree, path, edit, "documents");
      }
  }

  lemma ListWriteKeeps(m: Machine, step: Step, place: Place)
    requires Slotted(m) && step.target.OnCase? && step.parts == ["documents"] && Execute(m, step).Some?
    requires place.InCase? ==> !Meets(step.parts, place.path)
    ensures ReadAt(Execute(m, step).value, place) == ReadAt(m, place)
  {
    match place
    case InCase(q) =>
      hide EditAt;
      EditKeeps(m.tree, step.parts, step.edit, q);
    case InDocument(id, q) =>
      if id in m.index {
        assert SlotFine(m.tree, m.index[id]);
        assert DocumentAt(Execute(m, step).value, id) == DocumentAt(m, id);
      }
  }

  lemma DocumentWriteKeeps(m: Machine, step: Step, id: string, place: Place)
    requires Ready(m) && |step.parts| > 0 && step.target == OnDocument(id) && Execute(m, step).Some?
    requires !Touches(InDocument(id, step.parts), place)
    ensures ReadAt(Execute(m, step).value, place) == ReadAt(m, place)
  {
    StoresDocument(m, step, id);
    var next := Execute(m, step).value;
    match place
    case InCase(q) =>
      hide EditAt;
      OutsideDocuments(m.tree, next.tree, q);
    case InDocument(other, q) =>
      if other == id {
        hide Execute, DocumentAt;
        EditKeeps(DocumentAt(m, id).value, step.parts, step.edit, q);
      } else {
        OtherDocument(m, step, id, other);
      }
  }

  lemma OutsideDocuments(t: Json, u: Json, q: seq<string>)
    requires t.Obj? && (u == t || (Documents(t).Some? && Documents(t).value != [] && Documents(u).Some? && Documents(u).value != [] && u == WithDocuments(t, Documents(u).value)))
    requires !(q <= ["documents"])
    ensures Lookup(u, q) == Lookup(t, q)
  {
    assert q != [] && q != ["documents"];
    assert |q| == 1 ==> q == [q[0]];
  }

  lemma OtherDocument(m: Machine, step: Step, id: string, other: string)
    requires Ready(m) && |step.parts| > 0 && step.target == OnDocument(id) && Execute(m, step).Some? && other != id
    ensures DocumentAt(Execute(m, step).value, other) == DocumentAt(m, other)
  {
    hide EditAt;
    if m.index[id].Attached? {
      assert SlotFine(m.tree, m.index[id]);
      var items, at := Documents(m.tree).value, m.index[id].at;
      var edited := EditAt(items[at], step.parts, step.edit).value;
      assert Documents(WithDocuments(m.tree, items[at := edited])) == Some(items[at := edited]);
    }
  }

  lemma StepReady(m: Machine, step: Step)
    requires Ready(m) && |step.parts| > 0 && Execute(m, step).Some?
    ensures Ready(Execute(m, step).value)
  {
    StepSlotted(m, step);
    hide EditAt, Slotted, Documents;
  }

  // ---------- A whole run ----------

  /** The place an operation writes; nothing is claimed of operations the code cannot read. */
  function Writes(op: Json): Place {
    match ReadOperation(op)
    case None => InCase([])
    case Some(step) => PlaceOf(step)
  }

  /** What it leaves there. */
  function Leaves(op: Json): Option<Json> {
    match ReadOperation(op)
    case None => None
    case Some(step) => Left(step.edit)
  }

  /** No operation writes where `place` could change. */
  ghost predicate Spared(operations: seq<Json>, place: Place) {
    forall k :: 0 <= k < |operations| ==> !Touches(Writes(operations[k]), place)
  }

  lemma FirstStep(m: Machine, operations: seq<Json>) returns (step: Step, next: Machine)
    requires Ready(m) && operations != [] && Run(m, operations).Some?
    ensures |step.parts| > 0 && ReadOperation(operations[0]) == Some(step) && Execute(m, step) == Some(next) && Ready(next)
    ensures Run(m, operations) == Run(next, operations[1..])
    ensures Writes(operations[0]) == PlaceOf(step) && Leaves(operations[0]) == Left(step.edit)
  {
    hide Execute, Ready, ReadOperation;
    step := ReadOperation(operations[0]).value;
    next := Execute(m, step).value;
    StepReady(m, step);
  }

  /** A spared place holds what it did. */
  lemma {:induction false} RunKeeps(m: Machine, operations: seq<Json>, place: Place)
    requires Ready(m) && Run(m, operations).Some? && Spared(operations, place)
    ensures ReadAt(Run(m, operations).value, place) == ReadAt(m, place)
    decreases |operations|
  {
    if operations != [] {
      hide Execute, Ready, ReadOperation, Touches, Writes, ReadAt, Run;
      var step, next := FirstStep(m, operations);
      assert !Touches(Writes(operations[0]), place);
      StepKeeps(m, step, place);
      forall k | 0 <= k < |operations| - 1 ensures !Touches(Writes(operations[1..][k]), place) {
        assert operations[1..][k] == operations[k + 1];
      }
      RunKeeps(next, operations[1..], place);
    }
  }

  /** A place no later operation touches holds what this one left. */
  lemma {:induction false} RunLeaves(m: Machine, operations: seq<Json>, k: nat)
    requires Ready(m) && Run(m, operations).Some? && k < |operations| && Spared(operations[k + 1..], Writes(operations[k]))
    ensures ReadOperation(operations[k]).Some? && ReadAt(Run(m, operations).value, Writes(operations[k])) == Leaves(operations[k])
    decreases |operations|
  {
    hide Execute, Ready, ReadOperation, Spared, Writes, Leaves, ReadAt, Run;
    var step, next := FirstStep(m, operations);
    if k == 0 {
      ReadySlotted(m);
      StepLeaves(m, step);
      RunKeeps(next, operations[1..], Writes(operations[0]));
    } else {
      assert operations[1..][k..] == operations[k + 1..] && operations[1..][k - 1] == operations[k];
      RunLeaves(next, operations[1..], k - 1);
    }
  }

  lemma ReadySlotted(m: Machine)
    requires Ready(m)
    ensures Slotted(m)
  {}

  /** Operation `k` is the first at fault: the ones before it run, and it cannot be read or its place not be written. */
  ghost predicate FailsAt(m: Machine, operations: seq<Json>, k: nat)
    requires k < |operations|
  {
    && Run(m, operations[..k]).Some?
    && (ReadOperation(operations[k]).None? || !Writable(Run(m, operations[..k]).value, Writes(operations[k])))
  }

  /** A run raises exactly when some operation is at fault in the state the ones before it lead to. */
  lemma {:induction false} RunRaises(m: Machine, operations: seq<Json>)
    requires Ready(m)
    ensures Run(m, operations).None? <==> exists k: nat :: k < |operations| && FailsAt(m, operations, k)
    decreases |operations|
  {
    if operations == [] {
    } else {
      assert operations[..0] == [] && Run(m, operations[..0]) == Some(m);
      var step := ReadOperation(operations[0]);
      if step.None? {
        assert FailsAt(m, operations, 0);
      } else {
        ReadySlotted(m);
        StepRaises(m, step.value);
        hide Execute, Ready, ReadOperation, Writable;
        if Execute(m, step.value).None? {
          assert FailsAt(m, operations, 0);
        } else {
          var next := Execute(m, step.value).value;
          StepReady(m, step.value);
          RunRaises(next, operations[1..]);
          assert !FailsAt(m, operations, 0);
          LaterFaults(m, next, operations);
        }
      }
    }
  }

  lemma LaterFaults(m: Machine, next: Machine, operations: seq<Json>)
    requires operations != [] && ReadExecute(m, operations[0]) == Some(next) && !FailsAt(m, operations, 0)
    ensures (exists k: nat :: k < |operations| && FailsAt(m, operations, k)) <==>
      exists k: nat :: k < |operations[1..]| && FailsAt(next, operations[1..], k)
  {
    forall k: nat | 0 < k < |operations| ensures FailsAt(m, operations, k) <==> FailsAt(next, operations[1..], k - 1) {
      assert operations[..k][1..] == operations[1..][..k - 1] && operations[..k][0] == operations[0];
      assert Run(m, operations[..k]) == Run(next, operations[1..][..k - 1]);
      assert operations[1..][k - 1] == operations[k];
    }
    if k: nat :| k < |operations| && FailsAt(m, operations, k) {
      assert FailsAt(next, operations[1..], k - 1);
    }
    if k: nat :| k < |operations[1..]| && FailsAt(next, operations[1..], k) {
      assert FailsAt(m, operations, k + 1);
    }
  }

  // ---------- What an operation says ----------

  /** `".".join(parts)`. */
  function Join(parts: seq<string>): string {
    if parts == [] then "" else if |parts| == 1 then parts[0] else parts[0] + "." + Join(parts[1..])
  }

  /** The path of an operation names its members between dots. */
  lemma {:induction false} SplitJoins(path: string)
    ensures Join(Split(path)) == path && forall k :: 0 <= k < |Split(path)| ==> Dotless(Split(path)[k])
  {
    if path != "" {
      SplitJoins(path[1..]);
      var rest := Split(path[1..]);
      if path[0] == '.' {
        assert Split(path) == [""] + rest && Split(path)[1..] == rest;
        assert "" + "." + Join(rest) == path;
      } else {
        var parts := [[path[0]] + rest[0]] + rest[1..];
        assert parts[1..] == rest[1..];
        assert Join(parts) == [path[0]] + Join(rest);
        assert [path[0]] + path[1..] == path;
      }
    }
  }

  predicate Says(op: Json, name: string, text: string) {
    Get(op, name) == Some(Str(text))
  }

  function PlaceSaid(op: Json, parts: seq<string>): Place {
    if Says(op, "target", "event") then InCase(["event"] + parts)
    else if Says(op, "target", "case") then InCase(parts)
    else InDocument(if TextAt(op, "document_id").Some? then TextAt(op, "document_id").value else "", parts)
  }

  /** Which operations can be read, where they write and what they leave there, in terms of their members. */
  lemma OperationSays(op: Json)
    ensures ReadOperation(op).Some? <==>
      && op.Obj? && TextAt(op, "path").Some? && TextAt(op, "path").value != ""
      && (((Get(op, "target").None? || Says(op, "target", "document")) && TextAt(op, "document_id").Some?)
          || Says(op, "target", "event") || Says(op, "target", "case"))
      && (Says(op, "op", "delete") || (Says(op, "op", "set") && Get(op, "value").Some?))
    ensures ReadOperation(op).Some? ==> Writes(op) == PlaceSaid(op, Split(TextAt(op, "path").value))
    ensures ReadOperation(op).Some? ==> Leaves(op) == if Says(op, "op", "set") then Get(op, "value") else None
  {
    assert "set" != "delete" && "event" != "case" && "event" != "document" && "case" != "document" by {
      assert |"set"| == 3 && |"delete"| == 6 && |"event"| == 5 && |"case"| == 4 && |"document"| == 8;
    }
    hide Split;
  }

  /** The index can be made exactly when the documents can be looped over and each has an identifier that can be a
      key. */
  lemma BeginRaises(theCase: Json)
    ensures Begin(theCase).Some? <==>
      match Get(theCase, "documents") {
        case Some(Arr(items)) => forall k :: 0 <= k < |items| ==> Get(items[k], "document_id").Some? && Hashable(Get(items[k], "document_id").value)
        case Some(Obj(members)) => members == map[]
        case Some(Str(text)) => text == ""
        case _ => false
      }
  {
    if Documents(theCase).Some? {
      IndexRaises(Documents(theCase).value);
    }
  }

  lemma {:induction false} IndexRaises(items: seq<Json>)
    ensures IndexFrom(items).Some? <==>
      forall k :: 0 <= k < |items| ==> Get(items[k], "document_id").Some? && Hashable(Get(items[k], "document_id").value)
  {
    if items != [] {
      IndexRaises(items[..|items| - 1]);
    }
  }

  // ---------- A mutation, Case to Case ----------

  /** The last document of that identifier, which is the one the index finds. */
  function LastWith(items: seq<Json>, id: string): Option<nat> {
    if items == [] then None
    else if Get(items[|items| - 1], "document_id") == Some(Str(id)) then Some(|items| - 1)
    else LastWith(items[..|items| - 1], id)
  }

  lemma {:induction false} IndexIsLast(items: seq<Json>, id: string)
    requires IndexFrom(items).Some?
    ensures id in IndexFrom(items).value <==> LastWith(items, id).Some?
    ensures LastWith(items, id).Some? ==> IndexFrom(items).value[id] == Attached(LastWith(items, id).value) && LastWith(items, id).value < |items|
  {
    if items != [] {
      IndexIsLast(items[..|items| - 1], id);
    }
  }

  lemma BeginsReady(theCase: Json)
    requires Begin(theCase).Some?
    ensures Ready(Begin(theCase).value)
  {
    var items := Documents(theCase).value;
    var index := IndexFrom(items).value;
    IndexSlotted(theCase, index);
    forall i, j | i in index && j in index && i != j ensures index[i].Attached? && index[j].Attached? && index[i].at != index[j].at {
      IndexPoints(items, i);
      IndexPoints(items, j);
    }
  }

  /** What `now` holds at a place of the Case it came from: a document is found where it was. */
  function CaseReads(before: Json, now: Json, place: Place): Option<Json> {
    match place
    case InCase(path) => Lookup(now, path)
    case InDocument(id, path) =>
      var at := if Documents(before).Some? then LastWith(Documents(before).value, id) else None;
      if at.Some? && Documents(now).Some? && at.value < |Documents(now).value| then Lookup(Documents(now).value[at.value], path) else None
  }

  /** No operation rewrites the list of documents as a whole. */
  ghost predicate KeepsList(operations: seq<Json>) {
    forall k :: 0 <= k < |operations| ==> Writes(operations[k]).InCase? ==>
      Writes(operations[k]).path != [] && Writes(operations[k]).path[0] != "documents"
  }

  /** A place the marker written last is not on. */
  predicate BesideMarker(place: Place) {
    place.InCase? ==> !Meets([MARKER], place.path)
  }

  lemma {:induction false} IndexStays(m: Machine, operations: seq<Json>)
    requires Run(m, operations).Some? && KeepsList(operations) && forall id :: id in m.index ==> m.index[id].Attached?
    ensures Run(m, operations).value.index == m.index
    decreases |operations|
  {
    if operations != [] {
      var step := ReadOperation(operations[0]).value;
      hide EditAt, ReadOperation, Documents;
      assert Writes(operations[0]) == PlaceOf(step);
      var next := Execute(m, step).value;
      assert next.index == m.index;
      forall k | 0 <= k < |operations| - 1 ensures operations[1..][k] == operations[k + 1] {}
      hide Execute;
      IndexStays(next, operations[1..]);
    }
  }

  /** Reading the end of a run is reading the Case it leads to. */
  lemma RunIsCase(theCase: Json, id: string, operations: seq<Json>, place: Place)
    requires Applied(theCase, id, operations).Some? && BesideMarker(place)
    requires place.InDocument? ==> KeepsList(operations)
    ensures var start := Begin(theCase).value;
      && ReadAt(Run(start, operations).value, place) == CaseReads(theCase, Applied(theCase, id, operations).value, place)
      && ReadAt(start, place) == CaseReads(theCase, theCase, place)
  {
    var start := Begin(theCase).value;
    var done := Run(start, operations).value;
    var after := Marked(done.tree, id);
    MarkedAlike(done.tree, id);
    hide Run, Documents, IndexFrom, Marked;
    match place
    case InCase(path) =>
      MarkedReads(done.tree, id, path);
    case InDocument(name, path) =>
      var items := Documents(theCase).value;
      AllAttached(items);
      IndexStays(start, operations);
      IndexIsLast(items, name);
  }

  lemma AllAttached(items: seq<Json>)
    requires IndexFrom(items).Some?
    ensures forall id :: id in IndexFrom(items).value ==> IndexFrom(items).value[id].Attached?
  {
    forall id | id in IndexFrom(items).value ensures IndexFrom(items).value[id].Attached? {
      IndexPoints(items, id);
    }
  }

  lemma MarkedReads(tree: Json, id: string, path: seq<string>)
    requires tree.Obj? && !Meets([MARKER], path)
    ensures Lookup(Marked(tree, id), path) == Lookup(tree, path)
  {
    assert path != [] && path[0] == MARKER ==> [MARKER] <= path;
    assert path == [] ==> path <= [MARKER];
  }

  /** Read after write: what the last operation on a place left there is what the mutated Case holds there, in the
      event, the Case or the document. */
  lemma MutationWrites(theCase: Json, mutation: Json, k: nat)
    requires Mutated(theCase, mutation).Some? && k < |Operations(mutation).value|
    requires var operations := Operations(mutation).value;
      && Spared(operations[k + 1..], Writes(operations[k])) && BesideMarker(Writes(operations[k]))
      && (Writes(operations[k]).InDocument? ==> KeepsList(operations))
    ensures var op := Operations(mutation).value[k];
      ReadOperation(op).Some? && CaseReads(theCase, Mutated(theCase, mutation).value, Writes(op)) == Leaves(op)
  {
    var operations := Operations(mutation).value;
    BeginsReady(theCase);
    hide Begin, Run, Ready, ReadOperation, Writes, Leaves, Spared, ReadAt, CaseReads, KeepsList;
    RunLeaves(Begin(theCase).value, operations, k);
    RunIsCase(theCase, MutationId(mutation).value, operations, Writes(operations[k]));
  }

  /** Every place no operation touches holds what it did. */
  lemma MutationKeeps(theCase: Json, mutation: Json, place: Place)
    requires Mutated(theCase, mutation).Some? && Spared(Operations(mutation).value, place) && BesideMarker(place)
    requires place.InDocument? ==> KeepsList(Operations(mutation).value)
    ensures CaseReads(theCase, Mutated(theCase, mutation).value, place) == CaseReads(theCase, theCase, place)
  {
    var operations := Operations(mutation).value;
    BeginsReady(theCase);
    hide Begin, Run, Ready, Writes, Spared, ReadAt, CaseReads, KeepsList;
    RunKeeps(Begin(theCase).value, operations, place);
    RunIsCase(theCase, MutationId(mutation).value, operations, place);
  }

  /** The marker is the mutation's identifier. */
  lemma MutationMarks(theCase: Json, mutation: Json)
    requires Mutated(theCase, mutation).Some?
    ensures Lookup(Mutated(theCase, mutation).value, ["active_mutation"]) == Some(Get(mutation, "mutation_id").value)
  {
    hide Run, Begin;
  }

  /** A mutation raises exactly without an identifier, without a list that fits the bound, on a Case whose documents
      cannot be indexed, or when some operation is at fault. */
  lemma MutationRaises(theCase: Json, mutation: Json)
    ensures Mutated(theCase, mutation).None? <==>
      || TextAt(mutation, "mutation_id").None? || TextAt(mutation, "mutation_id").value == ""
      || Get(mutation, "operations").None? || !Get(mutation, "operations").value.Arr? || |Get(mutation, "operations").value.items| > 10000
      || Begin(theCase).None?
      || exists k: nat :: k < |Get(mutation, "operations").value.items| && FailsAt(Begin(theCase).value, Get(mutation, "operations").value.items, k)
  {
    hide Run, Begin, FailsAt;
    if MutationId(mutation).Some? && Operations(mutation).Some? && Begin(theCase).Some? {
      BeginsReady(theCase);
      RunRaises(Begin(theCase).value, Operations(mutation).value);
      TreeIsObject(Begin(theCase).value) by {
        ReadySlotted(Begin(theCase).value);
      }
      RunKeepsObject(Begin(theCase).value, Operations(mutation).value);
    }
  }
}

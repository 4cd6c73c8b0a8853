/** Recorded mutations: nested edits on a Case, the once-built document index, and the projected form that
    must have the same effect. */
module Mutations {
  import opened Json

  const MAX_MUTATION_OPERATIONS := 10000

  // ---------- Paths ----------

  /** `path.split(".")`. */
  function Split(path: string): (parts: seq<string>)
    ensures |parts| > 0
  {
    if path == "" then [""]
    else
      var rest := Split(path[1..]);
      if path[0] == '.' then [""] + rest else [[path[0]] + rest[0]] + rest[1..]
  }

  datatype Edit = Put(value: Json) | Remove

  /** `_set_nested` and `_delete_nested`; None where the walk or the final step raises. */
  function EditAt(j: Json, parts: seq<string>, edit: Edit): Option<Json>
    requires |parts| > 0
    decreases |parts|
  {
    if !j.Obj? then None
    else if |parts| == 1 then
      Some(Obj(if edit.Put? then j.members[parts[0] := edit.value] else j.members - {parts[0]}))
    else if parts[0] !in j.members then None
    else
      match EditAt(j.members[parts[0]], parts[1..], edit)
      case None => None
      case Some(inner) => Some(Obj(j.members[parts[0] := inner]))
  }

  /** The members a path's root does not name stay as they were. */
  lemma EditTouchesRoot(j: Json, parts: seq<string>, edit: Edit, name: string)
    requires |parts| > 0 && EditAt(j, parts, edit).Some? && name != parts[0]
    ensures j.Obj? && EditAt(j, parts, edit).value.Obj?
    ensures Get(EditAt(j, parts, edit).value, name) == Get(j, name)
  {}

  // ---------- One operation ----------

  datatype Target = OnDocument(id: string) | OnEvent | OnCase

  datatype Step = Step(target: Target, parts: seq<string>, edit: Edit)

  function TextAt(op: Json, name: string): Option<string> {
    match Get(op, name)
    case Some(Str(s)) => Some(s)
    case _ => None
  }

  /** What `apply_mutation` reads from one operation; None where it raises on the operation alone. */
  function ReadOperation(op: Json): (r: Option<Step>)
    ensures r.Some? ==> |r.value.parts| > 0
  {
    var target := if Get(op, "target").None? then Some("document") else TextAt(op, "target");
    var path := TextAt(op, "path");
    var kind := TextAt(op, "op");
    if !op.Obj? || target.None? || path.None? || path.value == "" || kind.None? then None
    else
      var where :=
        if target.value == "event" then Some(OnEvent)
        else if target.value == "case" then Some(OnCase)
        else if target.value == "document" && TextAt(op, "document_id").Some? then Some(OnDocument(TextAt(op, "document_id").value))
        else None;
      var edit :=
        if kind.value == "set" && Get(op, "value").Some? then Some(Put(Get(op, "value").value))
        else if kind.value == "delete" then Some(Remove)
        else None;
      if where.None? || edit.None? then None else Some(Step(where.value, Split(path.value), edit.value))
  }

  /** Where an indexed document lives: still in the Case, or cut off by an edit of the whole list. */
  datatype Slot = Attached(at: nat) | Detached(document: Json)

  datatype Machine = Machine(tree: Json, index: map<string, Slot>)

  /** The documents a loop over the member visits; an empty object or text has none, and other values raise. */
  function Documents(tree: Json): Option<seq<Json>> {
    match Get(tree, "documents")
    case Some(Arr(items)) => Some(items)
    case Some(Obj(members)) => if members == map[] then Some([]) else None
    case Some(Str(s)) => if s == "" then Some([]) else None
    case _ => None
  }

  function WithDocuments(tree: Json, items: seq<Json>): Json
    requires tree.Obj?
  {
    Obj(tree.members["documents" := Arr(items)])
  }

  /** The dictionary made before the first operation; a later document takes over a repeated identifier. */
  function IndexFrom(items: seq<Json>): Option<map<string, Slot>> {
    if items == [] then Some(map[])
    else
      var n := |items| - 1;
      match IndexFrom(items[..n])
      case None => None
      case Some(index) =>
        match Get(items[n], "document_id")
        case None => None
        case Some(Str(id)) => Some(index[id := Attached(n)])
        case Some(other) => if Hashable(other) then Some(index) else None
  }

  function DetachAll(m: Machine): map<string, Slot> {
    map id | id in m.index ::
      match m.index[id]
      case Attached(at) =>
        var items := Documents(m.tree);
        Detached(if items.Some? && at < |items.value| then items.value[at] else Null)
      case Detached(d) => Detached(d)
  }

  function Execute(m: Machine, step: Step): Option<Machine>
    requires |step.parts| > 0
  {
    match step.target
    case OnEvent =>
      (match Get(m.tree, "event")
       case None => None
       case Some(event) =>
         match EditAt(event, step.parts, step.edit)
         case None => None
         case Some(edited) => Some(Machine(Obj(m.tree.members["event" := edited]), m.index)))
    case OnCase =>
      (match EditAt(m.tree, step.parts, step.edit)
       case None => None
       case Some(edited) => Some(Machine(edited, if step.parts == ["documents"] then DetachAll(m) else m.index)))
    case OnDocument(id) =>
      if id !in m.index then None
      else
        match m.index[id]
        case Detached(d) =>
          (match EditAt(d, step.parts, step.edit)
           case None => None
           case Some(edited) => Some(Machine(m.tree, m.index[id := Detached(edited)])))
        case Attached(at) =>
          var items := Documents(m.tree);
          if items.None? || at >= |items.value| then None
          else
            match EditAt(items.value[at], step.parts, step.edit)
            case None => None
            case Some(edited) => Some(Machine(WithDocuments(m.tree, items.value[at := edited]), m.index))
  }

  function ReadExecute(m: Machine, op: Json): Option<Machine> {
    match ReadOperation(op)
    case None => None
    case Some(step) => Execute(m, step)
  }

  function Run(m: Machine, operations: seq<Json>): Option<Machine>
    decreases |operations|
  {
    if operations == [] then Some(m)
    else
      match ReadExecute(m, operations[0])
      case None => None
      case Some(next) => Run(next, operations[1..])
  }

  lemma {:induction false} RunConcat(m: Machine, a: seq<Json>, b: seq<Json>)
    ensures Run(m, a + b) == (match Run(m, a) case None => None case Some(next) => Run(next, b))
    decreases |a|
  {
    if a == [] {
      assert a + b == b;
    } else {
      assert (a + b)[1..] == a[1..] + b;
      if ReadExecute(m, a[0]).Some? {
        RunConcat(ReadExecute(m, a[0]).value, a[1..], b);
      }
    }
  }

  // ---------- A whole mutation ----------

  function Operations(mutation: Json): Option<seq<Json>> {
    match Get(mutation, "operations")
    case Some(Arr(items)) => if |items| <= MAX_MUTATION_OPERATIONS then Some(items) else None
    case _ => None
  }

  function MutationId(mutation: Json): Option<string> {
    match TextAt(mutation, "mutation_id")
    case Some(id) => if id != "" then Some(id) else None
    case None => None
  }

  function Begin(theCase: Json): Option<Machine> {
    var items := Documents(theCase);
    if items.None? then None
    else
      match IndexFrom(items.value)
      case None => None
      case Some(index) => Some(Machine(theCase, index))
  }

  function Marked(tree: Json, id: string): Json
    requires tree.Obj?
  {
    Obj(tree.members["active_mutation" := Str(id)])
  }

  /** What the operations alone lead to, under the marker `id`; None where one of them raises. */
  function Applied(theCase: Json, id: string, operations: seq<Json>): Option<Json> {
    match Begin(theCase)
    case None => None
    case Some(m) =>
      match Run(m, operations)
      case None => None
      case Some(done) => if done.tree.Obj? then Some(Marked(done.tree, id)) else None
  }

  /** The Case a mutation leads to; None where `apply_mutation` raises: a missing or empty identifier, no list of
      operations or too long a one, or an operation that raises. */
  function Mutated(theCase: Json, mutation: Json): Option<Json> {
    if MutationId(mutation).None? || Operations(mutation).None? then None
    else Applied(theCase, MutationId(mutation).value, Operations(mutation).value)
  }

  lemma ExecuteKeepsObject(m: Machine, step: Step)
    requires |step.parts| > 0 && m.tree.Obj?
    ensures Execute(m, step).Some? ==> Execute(m, step).value.tree.Obj?
  {}

  lemma {:induction false} RunKeepsObject(m: Machine, operations: seq<Json>)
    requires m.tree.Obj?
    ensures Run(m, operations).Some? ==> Run(m, operations).value.tree.Obj?
    decreases |operations|
  {
    hide Execute;
    if operations != [] {
      var step := ReadOperation(operations[0]);
      if step.Some? {
        ExecuteKeepsObject(m, step.value);
        var next := Execute(m, step.value);
        if next.Some? {
          RunKeepsObject(next.value, operations[1..]);
        }
      }
    }
  }

  /** `apply_mutation`. */
  method ApplyMutation(theCase: Json, mutation: Json) returns (r: Option<Json>)
    ensures r == Mutated(theCase, mutation)
  {
    hide EditAt, Execute, ReadOperation, IndexFrom;
    var id, operations := MutationId(mutation), Operations(mutation);
    if id.None? || operations.None? {
      return None;
    }
    var start := Begin(theCase);
    if start.None? {
      return None;
    }
    var mutated := start.value;
    RunKeepsObject(mutated, operations.value);
    var k := 0;
    while k < |operations.value|
      invariant 0 <= k <= |operations.value|
      invariant Run(start.value, operations.value) == Run(mutated, operations.value[k..])
    {
      assert operations.value[k..][1..] == operations.value[k + 1..];
      var step := ReadOperation(operations.value[k]);
      if step.None? {
        return None;
      }
      var next := Execute(mutated, step.value);
      if next.None? {
        return None;
      }
      mutated := next.value;
      k := k + 1;
    }
    return Some(Marked(mutated.tree, id.value));
  }

  // ---------- The early index ----------

  /** A document operation whose root leaves the identifier alone. */
  ghost predicate KeepsIdentity(op: Json) {
    var step := ReadOperation(op);
    step.Some? ==> step.value.target.OnDocument? && step.value.parts[0] != "document_id"
  }

  /** The index is the one the current documents would give. */
  ghost predicate Current(m: Machine) {
    m.tree.Obj? && Documents(m.tree).Some? && IndexFrom(Documents(m.tree).value) == Some(m.index)
  }

  lemma {:induction false} IndexPoints(items: seq<Json>, id: string)
    requires IndexFrom(items).Some? && id in IndexFrom(items).value
    ensures IndexFrom(items).value[id].Attached? && IndexFrom(items).value[id].at < |items|
    ensures Get(items[IndexFrom(items).value[id].at], "document_id") == Some(Str(id))
  {
    var n := |items| - 1;
    if !(Get(items[n], "document_id") == Some(Str(id))) {
      IndexPoints(items[..n], id);
    }
  }

  lemma {:induction false} SameIdsSameIndex(a: seq<Json>, b: seq<Json>)
    requires |a| == |b| && forall k :: 0 <= k < |a| ==> Get(a[k], "document_id") == Get(b[k], "document_id")
    ensures IndexFrom(a) == IndexFrom(b)
  {
    if a != [] {
      SameIdsSameIndex(a[..|a| - 1], b[..|b| - 1]);
    }
  }

  /** A document operation that keeps the identifier keeps the index current. */
  lemma StepKeepsCurrent(m: Machine, step: Step)
    requires Current(m) && |step.parts| > 0 && step.target.OnDocument? && step.parts[0] != "document_id"
    ensures Execute(m, step).Some? ==> Current(Execute(m, step).value) && Execute(m, step).value.index == m.index
  {
    hide EditAt;
    var id := step.target.id;
    if id in m.index {
      IndexPoints(Documents(m.tree).value, id);
      var items, at := Documents(m.tree).value, m.index[id].at;
      var edited := EditAt(items[at], step.parts, step.edit);
      if edited.Some? {
        EditTouchesRoot(items[at], step.parts, step.edit, "document_id");
        SameIdsSameIndex(items, items[at := edited.value]);
        assert Documents(WithDocuments(m.tree, items[at := edited.value])) == Some(items[at := edited.value]);
      }
    }
  }

  lemma StartsCurrent(theCase: Json)
    requires Begin(theCase).Some?
    ensures Current(Begin(theCase).value)
  {}
}

/** The projected form of a mutation kept in lineage material, and its rebuilding for application. */
module MutationMaterial {
  import opened Json
  import opened Mutations

  /** `value` is None for a delete; a set keeps the JSON it writes. */
  datatype Projected = Projected(op: string, target: string, documentId: Option<string>, path: string, value: Option<Json>)

  datatype Material = Material(mutationId: string, operations: seq<Projected>)

  // ---------- Decoding ----------

  predicate Control(c: char) {
    c as int < 32 || c as int == 127
  }

  /** `_exact_nonempty`. */
  predicate Exact(strip: string -> string, s: string) {
    s != "" && strip(s) == s && forall k :: 0 <= k < |s| ==> !Control(s[k])
  }

  function TargetName(op: Json): Option<string> {
    if op.Obj? && "target" !in op.members then Some("document") else TextAt(op, "target")
  }

  /** Exactly the members the operation's kind and target call for. */
  function AllowedMembers(op: Json, target: string, kind: string): set<string> {
    {"op", "path"} + (if op.Obj? && "target" in op.members then {"target"} else {})
      + (if target == "document" then {"document_id"} else {}) + (if kind == "set" then {"value"} else {})
  }

  /** The tests of one operation in `_decode_mutation`. */
  predicate Decodable(strip: string -> string, op: Json) {
    && op.Obj?
    && TargetName(op).Some? && TargetName(op).value in {"document", "event", "case"}
    && TextAt(op, "op").Some? && TextAt(op, "op").value in {"set", "delete"}
    && TextAt(op, "path").Some? && Exact(strip, TextAt(op, "path").value)
    && (TargetName(op).value == "document" ==> TextAt(op, "document_id").Some? && Exact(strip, TextAt(op, "document_id").value))
    && op.members.Keys == AllowedMembers(op, TargetName(op).value, TextAt(op, "op").value)
  }

  /** Nonempty, stripped, no control characters. */
  ghost predicate CleanText(strip: string -> string, j: Json) {
    j.Str? && |j.s| > 0 && strip(j.s) == j.s && forall c :: c in j.s ==> ' ' <= c && c as int != 127
  }

  /** The members of an operation, spelled out: a set has a value and a delete has none; an operation on a document,
      which is what one without a target is, names it. */
  ghost predicate Spelled(strip: string -> string, op: Json) {
    && op.Obj?
    && var m := op.members;
       && "op" in m && "path" in m && CleanText(strip, m["path"])
       && (m["op"] == Str("set") || m["op"] == Str("delete"))
       && var value := if m["op"] == Str("set") then {"value"} else {};
          || (m.Keys == {"op", "path", "document_id"} + value && CleanText(strip, m["document_id"]))
          || (m.Keys == {"op", "path", "document_id", "target"} + value && m["target"] == Str("document") && CleanText(strip, m["document_id"]))
          || (m.Keys == {"op", "path", "target"} + value && (m["target"] == Str("event") || m["target"] == Str("case")))
  }

  lemma ExactIff(strip: string -> string, s: string)
    ensures Exact(strip, s) <==> CleanText(strip, Str(s))
  {
    if CleanText(strip, Str(s)) {
      forall k | 0 <= k < |s| ensures !Control(s[k]) {
        assert s[k] in s;
      }
    }
  }

  lemma KindsDiffer()
    ensures "set" != "delete" && "document" != "event" && "document" != "case" && "event" != "case"
  {
    assert |"set"| == 3 && |"delete"| == 6 && |"document"| == 8 && |"event"| == 5 && |"case"| == 4;
  }

  /** An operation is decodable exactly when it is spelled as one of these. */
  lemma DecodableIff(strip: string -> string, op: Json)
    ensures Decodable(strip, op) <==> Spelled(strip, op)
  {
    if op.Obj? {
      var m := op.members;
      KindsDiffer();
      if "path" in m && m["path"].Str? {
        ExactIff(strip, m["path"].s);
      }
      if "document_id" in m && m["document_id"].Str? {
        ExactIff(strip, m["document_id"].s);
      }
      hide Exact, CleanText;
    }
  }

  function ProjectedFrom(op: Json): Projected
    requires op.Obj? && TargetName(op).Some? && TextAt(op, "op").Some? && TextAt(op, "path").Some?
  {
    Projected(TextAt(op, "op").value, TargetName(op).value,
              if TargetName(op).value == "document" then TextAt(op, "document_id") else None,
              TextAt(op, "path").value,
              if TextAt(op, "op").value == "set" then Get(op, "value") else None)
  }

  /** `_decode_mutation` on parsed JSON. */
  method DecodeMutation(strip: string -> string, raw: Json) returns (r: Option<Material>)
    ensures r.Some? <==> DecodesTo(strip, raw)
    ensures r.Some? ==>
      && TextAt(raw, "mutation_id") == Some(r.value.mutationId)
      && |r.value.operations| == |raw.members["operations"].items|
      && forall k :: 0 <= k < |r.value.operations| ==> r.value.operations[k] == ProjectedFrom(raw.members["operations"].items[k])
  {
    var id := TextAt(raw, "mutation_id");
    if !raw.Obj? || id.None? || !Exact(strip, id.value) {
      return None;
    }
    if "operations" !in raw.members || !raw.members["operations"].Arr? {
      return None;
    }
    var operations := raw.members["operations"].items;
    if |operations| == 0 || |operations| > MAX_MUTATION_OPERATIONS {
      return None;
    }
    var normalized: seq<Projected> := [];
    var k := 0;
    while k < |operations|
      invariant 0 <= k <= |operations| && |normalized| == k
      invariant forall i :: 0 <= i < k ==> Decodable(strip, operations[i]) && normalized[i] == ProjectedFrom(operations[i])
    {
      if !Decodable(strip, operations[k]) {
        return None;
      }
      normalized := normalized + [ProjectedFrom(operations[k])];
      k := k + 1;
    }
    return Some(Material(id.value, normalized));
  }

  ghost predicate DecodesTo(strip: string -> string, raw: Json) {
    && raw.Obj? && TextAt(raw, "mutation_id").Some? && Exact(strip, TextAt(raw, "mutation_id").value)
    && "operations" in raw.members && raw.members["operations"].Arr?
    && 0 < |raw.members["operations"].items| <= MAX_MUTATION_OPERATIONS
    && forall k :: 0 <= k < |raw.members["operations"].items| ==> Decodable(strip, raw.members["operations"].items[k])
  }

  /** Accepted are one to ten thousand operations, each spelled out, under a clean identifier. */
  lemma DecodesIff(strip: string -> string, raw: Json)
    ensures DecodesTo(strip, raw) <==>
      && raw.Obj? && "mutation_id" in raw.members && CleanText(strip, raw.members["mutation_id"])
      && "operations" in raw.members && raw.members["operations"].Arr?
      && 1 <= |raw.members["operations"].items| <= 10000
      && forall op :: op in raw.members["operations"].items ==> Spelled(strip, op)
  {
    if raw.Obj? && "mutation_id" in raw.members && raw.members["mutation_id"].Str? {
      ExactIff(strip, raw.members["mutation_id"].s);
    }
    forall op ensures Decodable(strip, op) <==> Spelled(strip, op) {
      DecodableIff(strip, op);
    }
    hide Exact, CleanText, Decodable, Spelled;
  }

  // ---------- Rebuilding ----------

  function OperationFor(p: Projected): Json {
    Obj(map["op" := Str(p.op), "target" := Str(p.target), "path" := Str(p.path)]
      + (if p.documentId.Some? then map["document_id" := Str(p.documentId.value)] else map[])
      + (if p.value.Some? then map["value" := p.value.value] else map[]))
  }

  /** `_mutation_for_application`. */
  method MutationForApplication(material: Material) returns (r: Json)
    ensures r.Obj? && MutationIdMember(r) == Some(Str(material.mutationId))
    ensures "operations" in r.members && r.members["operations"].Arr? && |r.members["operations"].items| == |material.operations|
    ensures forall k :: 0 <= k < |material.operations| ==> r.members["operations"].items[k] == OperationFor(material.operations[k])
  {
    var operations: seq<Json> := [];
    var k := 0;
    while k < |material.operations|
      invariant 0 <= k <= |material.operations| && |operations| == k
      invariant forall i :: 0 <= i < k ==> operations[i] == OperationFor(material.operations[i])
    {
      operations := operations + [OperationFor(material.operations[k])];
      k := k + 1;
    }
    r := Obj(map["mutation_id" := Str(material.mutationId), "operations" := Arr(operations)]);
  }

  function MutationIdMember(r: Json): Option<Json> {
    Get(r, "mutation_id")
  }

  // ---------- Same effect ----------

  lemma RebuiltMembers(p: Projected)
    ensures var op := OperationFor(p);
      && TextAt(op, "op") == Some(p.op) && TextAt(op, "target") == Some(p.target) && TextAt(op, "path") == Some(p.path)
      && Get(op, "target").Some? && Get(op, "value") == p.value
      && TextAt(op, "document_id") == p.documentId
  {}

  /** The rebuilt operation is read exactly as the raw one, with the default target and the set/delete
      distinction kept. */
  lemma ReadAlike(strip: string -> string, op: Json)
    requires Decodable(strip, op)
    ensures ReadOperation(OperationFor(ProjectedFrom(op))) == ReadOperation(op)
    ensures ReadOperation(op).Some?
  {
    var p := ProjectedFrom(op);
    RebuiltMembers(p);
    assert p.op == "set" ==> "value" in op.members;
    assert Get(op, "target").None? <==> "target" !in op.members;
    hide OperationFor, Split;
  }

  lemma {:induction false} RunAlike(m: Machine, a: seq<Json>, b: seq<Json>)
    requires |a| == |b| && forall k :: 0 <= k < |a| ==> ReadOperation(a[k]) == ReadOperation(b[k])
    ensures Run(m, a) == Run(m, b)
    decreases |a|
  {
    hide ReadOperation, Execute;
    if a != [] {
      assert ReadOperation(a[0]) == ReadOperation(b[0]);
      var next := ReadExecute(m, a[0]);
      if next.Some? {
        RunAlike(next.value, a[1..], b[1..]);
      }
    }
  }

  /** Every accepted mutation, projected and rebuilt, has the effect of the raw one on every Case. */
  lemma ProjectionKeepsEffect(strip: string -> string, raw: Json, material: Material, rebuilt: Json, theCase: Json)
    requires DecodesTo(strip, raw)
    requires TextAt(raw, "mutation_id") == Some(material.mutationId)
    requires |material.operations| == |raw.members["operations"].items|
    requires forall k :: 0 <= k < |material.operations| ==> material.operations[k] == ProjectedFrom(raw.members["operations"].items[k])
    requires rebuilt.Obj? && MutationIdMember(rebuilt) == Some(Str(material.mutationId))
    requires "operations" in rebuilt.members && rebuilt.members["operations"].Arr? && |rebuilt.members["operations"].items| == |material.operations|
    requires forall k :: 0 <= k < |material.operations| ==> rebuilt.members["operations"].items[k] == OperationFor(material.operations[k])
    ensures MutationId(raw).Some? && MutationId(rebuilt) == MutationId(raw)
    ensures Operations(raw).Some? && Operations(rebuilt).Some?
    ensures Applied(theCase, MutationId(raw).value, Operations(raw).value) == Applied(theCase, MutationId(raw).value, Operations(rebuilt).value)
  {
    var a, b := raw.members["operations"].items, rebuilt.members["operations"].items;
    hide Decodable, ProjectedFrom, OperationFor, ReadOperation;
    forall k | 0 <= k < |a| ensures ReadOperation(a[k]) == ReadOperation(b[k]) {
      assert Decodable(strip, a[k]);
      DecodableShape(strip, a[k]);
      ReadAlike(strip, a[k]);
      assert material.operations[k] == ProjectedFrom(a[k]);
      assert b[k] == OperationFor(material.operations[k]);
    }
    var start := Begin(theCase);
    if start.Some? {
      RunAlike(start.value, a, b);
    }
  }

  lemma DecodableShape(strip: string -> string, op: Json)
    requires Decodable(strip, op)
    ensures op.Obj? && TargetName(op).Some? && TextAt(op, "op").Some? && TextAt(op, "path").Some?
  {}

  /** Decode, rebuild and apply, beside applying the raw mutation: always the same result. */
  method ApplyBothWays(strip: string -> string, raw: Json, theCase: Json) returns (decoded: bool, direct: Option<Json>, recorded: Option<Json>)
    ensures decoded <==> DecodesTo(strip, raw)
    ensures decoded ==> direct == recorded
    ensures decoded ==> direct == Applied(theCase, TextAt(raw, "mutation_id").value, raw.members["operations"].items)
  {
    hide Decodable, ProjectedFrom, OperationFor, ReadOperation, Applied;
    direct, recorded := None, None;
    var material := DecodeMutation(strip, raw);
    decoded := material.Some?;
    if decoded {
      var rebuilt := MutationForApplication(material.value);
      direct := ApplyMutation(theCase, raw);
      recorded := ApplyMutation(theCase, rebuilt);
      ProjectionKeepsEffect(strip, raw, material.value, rebuilt, theCase);
    }
  }
}

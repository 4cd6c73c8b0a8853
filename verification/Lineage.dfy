/** The hash-linked history of a source-rooted Case. Digests are free terms, so equal digests mean equal
    preimages. */
module Lineage {
  import opened Json
  import opened Mutations
  import opened MutationMaterial
  import opened Resolution

  /** One constructor per hash domain. */
  datatype Digest =
    | CaseDigest(projection: Json)
    | MaterialDigest(material: OperationMaterial)
    | LineageDigest(root: Digest, parent: Option<Digest>, input: Digest, kind: Kind, materialHash: Digest, output: Digest)
    | Opaque(name: string)

  datatype Kind = Mutation | NativeReplay

  /** What an operation is recorded as. The replay's other bound hashes travel in `bindings`. */
  datatype OperationMaterial =
    | MutationOf(blob: Json, recorded: Material)
    | ReplayOf(blob: Json, resolutionId: string, operations: seq<Projected>, artifactSet: string, references: string, bindings: seq<string>)

  datatype Entry = Entry(hash: Digest, root: Digest, parent: Option<Digest>, input: Digest, kind: Kind, materialHash: Digest, output: Digest,
                         material: OperationMaterial)

  /** The sealed context: `theCase` is the Case it holds, `references` its reference set. */
  datatype Context = Context(binding: Digest, rootCase: Digest, rootReferences: string, theCase: Json, references: string, lineages: seq<Entry>)

  /** Text rules, preparation and canonical projection, left uninterpreted. */
  datatype World = World(rules: Rules, prepare: Json -> Option<Json>, projection: Json -> Json)

  /** `canonical_hash`, which validates first. */
  function CaseHash(w: World, theCase: Json): Option<Digest> {
    if w.rules.valid(theCase) then Some(CaseDigest(w.projection(theCase))) else None
  }

  /** What `validate_case` guarantees of the Cases it accepts. */
  ghost predicate Validating(w: World) {
    forall c :: w.rules.valid(c) ==> c.Obj? && Documents(c).Some? && DistinctDocuments(w.rules, Documents(c).value)
  }

  // ---------- The invariant of reachable contexts ----------

  function LineageHash(e: Entry): Digest {
    LineageDigest(e.root, e.parent, e.input, e.kind, e.materialHash, e.output)
  }

  predicate Sound(e: Entry, binding: Digest) {
    e.root == binding && e.hash == LineageHash(e) && e.materialHash == MaterialDigest(e.material)
    && (e.kind.Mutation? <==> e.material.MutationOf?)
  }

  /** Each entry names its predecessor's hash and starts from its output; the first starts from the root Case. */
  ghost predicate Linked(binding: Digest, rootCase: Digest, entries: seq<Entry>) {
    && (forall k :: 0 <= k < |entries| ==> Sound(entries[k], binding))
    && (forall k :: 0 < k < |entries| ==> entries[k].parent == Some(entries[k - 1].hash) && entries[k].input == entries[k - 1].output)
    && (entries != [] ==> entries[0].parent.None? && entries[0].input == rootCase)
  }

  /** The reference set a history leads to: only native replays move it. */
  function ReferencesAfter(root: string, entries: seq<Entry>): string {
    if entries == [] then root
    else
      match entries[|entries| - 1].material
      case MutationOf(_, _) => ReferencesAfter(root, entries[..|entries| - 1])
      case ReplayOf(_, _, _, _, references, _) => references
  }

  function Terminal(c: Context): Digest {
    if c.lineages == [] then c.rootCase else c.lineages[|c.lineages| - 1].output
  }

  ghost predicate Continuous(w: World, c: Context) {
    && Linked(c.binding, c.rootCase, c.lineages)
    && CaseHash(w, c.theCase) == Some(Terminal(c))
    && c.references == ReferencesAfter(c.rootReferences, c.lineages)
  }

  datatype Outcome = Rejected | SelfParent | Discontinuous | Derived(context: Context)

  /** A context over a bound root Case. */
  method Bind(w: World, binding: Digest, theCase: Json, references: string) returns (r: Option<Context>)
    ensures r.Some? <==> w.rules.valid(theCase)
    ensures r.Some? ==> Continuous(w, r.value) && r.value.lineages == [] && r.value.theCase == theCase && r.value.references == references
  {
    var hash := CaseHash(w, theCase);
    if hash.None? {
      return None;
    }
    return Some(Context(binding, hash.value, references, theCase, references, []));
  }

  lemma HeldIsDistinct(w: World, c: Context)
    requires Continuous(w, c) && Validating(w)
    ensures c.theCase.Obj? && Documents(c.theCase).Some? && DistinctDocuments(w.rules, Documents(c.theCase).value)
  {
    assert w.rules.valid(c.theCase);
  }

  // ---------- Appending an entry ----------

  lemma NotItsOwnParent(e: Entry)
    ensures e.parent != Some(LineageHash(e))
  {
    if e.parent.Some? {
      assert e.parent.value < LineageHash(e);
    }
  }

  lemma ReferencesNext(root: string, entries: seq<Entry>, e: Entry)
    ensures ReferencesAfter(root, entries + [e]) == if e.material.ReplayOf? then e.material.references else ReferencesAfter(root, entries)
  {
    assert (entries + [e])[..|entries|] == entries;
  }

  lemma LinkedNext(c: Context, e: Entry)
    requires Linked(c.binding, c.rootCase, c.lineages) && Sound(e, c.binding) && e.input == Terminal(c)
    requires e.parent == if c.lineages == [] then None else Some(c.lineages[|c.lineages| - 1].hash)
    ensures Linked(c.binding, c.rootCase, c.lineages + [e])
  {
    var more := c.lineages + [e];
    forall k | 0 <= k < |more| ensures Sound(more[k], c.binding) {}
  }

  lemma ExtendedContinuous(w: World, c: Context, e: Entry, output: Json, references: string)
    requires Continuous(w, c) && Sound(e, c.binding) && e.input == Terminal(c)
    requires e.parent == if c.lineages == [] then None else Some(c.lineages[|c.lineages| - 1].hash)
    requires CaseHash(w, output) == Some(e.output)
    requires references == if e.material.ReplayOf? then e.material.references else c.references
    ensures Continuous(w, Context(c.binding, c.rootCase, c.rootReferences, output, references, c.lineages + [e]))
  {
    LinkedNext(c, e);
    ReferencesNext(c.rootReferences, c.lineages, e);
    hide Linked, ReferencesAfter, CaseHash;
  }

  /** The shared tail of both derivations: hash, link, check continuity, seal. The two error outcomes are the
      constructor's self-parent check and the continuity checks. */
  method Extend(w: World, c: Context, kind: Kind, material: OperationMaterial, output: Json, references: string) returns (r: Outcome)
    requires Continuous(w, c)
    requires kind.Mutation? <==> material.MutationOf?
    requires references == if material.ReplayOf? then material.references else c.references
    ensures !r.SelfParent? && !r.Discontinuous?
    ensures r.Derived? <==> w.rules.valid(output)
    ensures r.Derived? ==>
      && Continuous(w, r.context) && r.context.theCase == output
      && |r.context.lineages| == |c.lineages| + 1 && r.context.lineages[..|c.lineages|] == c.lineages
      && r.context.lineages[|c.lineages|].material == material
      && r.context.(theCase := c.theCase, references := c.references, lineages := c.lineages) == c
  {
    var inputHash, outputHash := CaseHash(w, c.theCase), CaseHash(w, output);
    if inputHash.None? || outputHash.None? {
      return Rejected;
    }
    var parent := if c.lineages == [] then None else Some(c.lineages[|c.lineages| - 1].hash);
    var entry := Entry(LineageDigest(c.binding, parent, inputHash.value, kind, MaterialDigest(material), outputHash.value),
                       c.binding, parent, inputHash.value, kind, MaterialDigest(material), outputHash.value, material);
    NotItsOwnParent(entry);
    assert entry.input == Terminal(c);
    hide Continuous;
    if entry.parent == Some(entry.hash) {
      return SelfParent;
    }
    if c.lineages != [] {
      if c.lineages[|c.lineages| - 1].output != entry.input {
        return Discontinuous;
      }
    } else if c.rootCase != entry.input {
      return Discontinuous;
    }
    ExtendedContinuous(w, c, entry, output, references);
    return Derived(Context(c.binding, c.rootCase, c.rootReferences, output, references, c.lineages + [entry]));
  }

  /** The Case a raw mutation leads to: applied, then prepared. */
  function Mutated(w: World, theCase: Json, raw: Json): Option<Json> {
    if !raw.Obj? || TextAt(raw, "mutation_id").None? || "operations" !in raw.members || !raw.members["operations"].Arr? then None
    else
      match Applied(theCase, TextAt(raw, "mutation_id").value, raw.members["operations"].items)
      case None => None
      case Some(mutated) => w.prepare(mutated)
  }

  /** A mutation that decodes, applies to the held Case and leads to a valid one. */
  ghost predicate MutationFits(w: World, c: Context, raw: Json) {
    DecodesTo(w.rules.strip, raw) && Mutated(w, c.theCase, raw).Some? && w.rules.valid(Mutated(w, c.theCase, raw).value)
  }

  /** The recorded material is the raw mutation's own, operation by operation. */
  ghost predicate Records(strip: string -> string, material: OperationMaterial, raw: Json)
    requires DecodesTo(strip, raw)
  {
    material.MutationOf? && material.blob == raw && DecodedAs(strip, raw, material.recorded)
  }

  ghost predicate DecodedAs(strip: string -> string, raw: Json, recorded: Material)
    requires DecodesTo(strip, raw)
  {
    && TextAt(raw, "mutation_id") == Some(recorded.mutationId) && |recorded.operations| == |raw.members["operations"].items|
    && forall k :: 0 <= k < |recorded.operations| ==> recorded.operations[k] == ProjectedFrom(raw.members["operations"].items[k])
  }

  /** `_derive_case_source_mutation`. */
  method DeriveMutation(w: World, c: Context, raw: Json) returns (r: Outcome)
    requires Continuous(w, c)
    ensures !r.SelfParent? && !r.Discontinuous?
    ensures r.Derived? <==> MutationFits(w, c, raw)
    ensures r.Derived? ==>
      && Continuous(w, r.context) && Extends(c, r.context) && r.context.references == c.references
      && Some(r.context.theCase) == Mutated(w, c.theCase, raw) && Records(w.rules.strip, r.context.lineages[|c.lineages|].material, raw)
  {
    hide Decodable, ProjectedFrom, OperationFor, ReadOperation, Applied, Continuous;
    var decoded := DecodeMutation(w.rules.strip, raw);
    if decoded.None? {
      return Rejected;
    }
    var rebuilt := MutationForApplication(decoded.value);
    var mutated := ApplyMutation(c.theCase, rebuilt);
    ProjectionKeepsEffect(w.rules.strip, raw, decoded.value, rebuilt, c.theCase);
    if mutated.None? {
      return Rejected;
    }
    var output := w.prepare(mutated.value);
    if output.None? {
      return Rejected;
    }
    r := Extend(w, c, Mutation, MutationOf(raw, decoded.value), output.value, c.references);
    if r.Derived? {
      MutationKeepsReferences(w, c, r.context);
    }
  }

  lemma MutationKeepsReferences(w: World, c: Context, d: Context)
    requires Continuous(w, c) && Continuous(w, d) && d.rootReferences == c.rootReferences
    requires |d.lineages| == |c.lineages| + 1 && d.lineages[..|c.lineages|] == c.lineages && d.lineages[|c.lineages|].material.MutationOf?
    ensures d.references == c.references
  {
    assert d.lineages == c.lineages + [d.lineages[|c.lineages|]];
    ReferencesNext(c.rootReferences, c.lineages, d.lineages[|c.lineages|]);
  }

  /** One more entry on the same root. */
  predicate Extends(c: Context, d: Context) {
    d.binding == c.binding && d.rootCase == c.rootCase && d.rootReferences == c.rootReferences
    && |d.lineages| == |c.lineages| + 1 && d.lineages[..|c.lineages|] == c.lineages
  }

  /** A rebuilt artifact context and the bytes it was captured from. */
  datatype Artifacts = Artifacts(artifactSet: string, replacementSet: string, sourceReferences: string, outputReferences: string,
                                 indexed: seq<string>, rebuilt: seq<Json>)

  predicate ReplayDecodable(strip: string -> string, op: Json) {
    && op.Obj? && op.members.Keys == {"op", "document_id", "path", "value"} && TextAt(op, "op") == Some("set")
    && TextAt(op, "document_id").Some? && Exact(strip, TextAt(op, "document_id").value)
    && TextAt(op, "path").Some? && Exact(strip, TextAt(op, "path").value)
  }

  /** A raw resolution of exact shape: three exact texts and a nonempty list of decodable operations. */
  predicate Projectable(strip: string -> string, raw: Json) {
    && raw.Obj? && raw.members.Keys == {"resolution_id", "description", "replacement_set_id", "operations"}
    && (forall name :: name in {"resolution_id", "description", "replacement_set_id"} ==> TextAt(raw, name).Some? && Exact(strip, TextAt(raw, name).value))
    && raw.members["operations"].Arr? && raw.members["operations"].items != []
    && forall k :: 0 <= k < |raw.members["operations"].items| ==> ReplayDecodable(strip, raw.members["operations"].items[k])
  }

  /** A set on a named document, spelled with exactly these four members. */
  ghost predicate SetSpelled(strip: string -> string, op: Json) {
    && op.Obj? && op.members.Keys == {"op", "document_id", "path", "value"}
    && op.members["op"] == Str("set") && CleanText(strip, op.members["document_id"]) && CleanText(strip, op.members["path"])
  }

  /** A resolution is projected exactly when it has these four members, clean texts and at least one such set. */
  lemma ProjectableIff(strip: string -> string, raw: Json)
    ensures Projectable(strip, raw) <==>
      && raw.Obj? && raw.members.Keys == {"resolution_id", "description", "replacement_set_id", "operations"}
      && CleanText(strip, raw.members["resolution_id"]) && CleanText(strip, raw.members["description"])
      && CleanText(strip, raw.members["replacement_set_id"])
      && raw.members["operations"].Arr? && |raw.members["operations"].items| >= 1
      && forall op :: op in raw.members["operations"].items ==> SetSpelled(strip, op)
  {
    forall op ensures ReplayDecodable(strip, op) <==> SetSpelled(strip, op) {
      SetSpelledIff(strip, op);
    }
    forall s ensures Exact(strip, s) <==> CleanText(strip, Str(s)) {
      ExactIff(strip, s);
    }
    hide ReplayDecodable, SetSpelled;
    if raw.Obj? && raw.members.Keys == {"resolution_id", "description", "replacement_set_id", "operations"} {
      TextsClean(strip, raw);
      hide Exact, CleanText, TextAt;
      if raw.members["operations"].Arr? {
        var items := raw.members["operations"].items;
        assert (forall k :: 0 <= k < |items| ==> ReplayDecodable(strip, items[k])) <==> forall op :: op in items ==> SetSpelled(strip, op);
      }
    }
  }

  lemma TextsClean(strip: string -> string, raw: Json)
    requires raw.Obj? && raw.members.Keys == {"resolution_id", "description", "replacement_set_id", "operations"}
    ensures (forall name :: name in {"resolution_id", "description", "replacement_set_id"} ==> TextAt(raw, name).Some? && Exact(strip, TextAt(raw, name).value)) <==>
      && CleanText(strip, raw.members["resolution_id"]) && CleanText(strip, raw.members["description"])
      && CleanText(strip, raw.members["replacement_set_id"])
  {
    forall name | name in {"resolution_id", "description", "replacement_set_id"}
      ensures TextAt(raw, name).Some? && Exact(strip, TextAt(raw, name).value) <==> CleanText(strip, raw.members[name])
    {
      assert name in raw.members.Keys;
      if raw.members[name].Str? {
        ExactIff(strip, raw.members[name].s);
      }
      hide Exact;
    }
    hide Exact, CleanText, TextAt;
  }

  lemma SetSpelledIff(strip: string -> string, op: Json)
    ensures ReplayDecodable(strip, op) <==> SetSpelled(strip, op)
  {
    forall s ensures Exact(strip, s) <==> CleanText(strip, Str(s)) {
      ExactIff(strip, s);
    }
    hide Exact;
  }

  /** The recorded operations are the raw resolution's, one by one. */
  predicate ProjectsTo(raw: Json, projected: seq<Projected>) {
    && raw.Obj? && "operations" in raw.members && raw.members["operations"].Arr? && |projected| == |raw.members["operations"].items|
    && forall k :: 0 <= k < |projected| ==> RecordsSet(raw.members["operations"].items[k], projected[k])
  }

  /** `_native_resolution_projection`: the recorded operations of a raw resolution. */
  method ProjectResolution(strip: string -> string, raw: Json) returns (r: Option<seq<Projected>>)
    ensures r.Some? <==> Projectable(strip, raw)
    ensures r.Some? ==> ProjectsTo(raw, r.value)
  {
    if !raw.Obj? || raw.members.Keys != {"resolution_id", "description", "replacement_set_id", "operations"} {
      return None;
    }
    var id, description, replacement := TextAt(raw, "resolution_id"), TextAt(raw, "description"), TextAt(raw, "replacement_set_id");
    if id.None? || description.None? || replacement.None? || !raw.members["operations"].Arr? {
      return None;
    }
    if !Exact(strip, id.value) || !Exact(strip, description.value) || !Exact(strip, replacement.value) {
      return None;
    }
    var operations := raw.members["operations"].items;
    if operations == [] {
      return None;
    }
    var projected: seq<Projected> := [];
    var k := 0;
    while k < |operations|
      invariant 0 <= k <= |operations| && |projected| == k
      invariant forall i :: 0 <= i < k ==> ReplayDecodable(strip, operations[i]) && RecordsSet(operations[i], projected[i])
    {
      if !ReplayDecodable(strip, operations[k]) {
        return None;
      }
      projected := projected + [Projected("set", "document", TextAt(operations[k], "document_id"), TextAt(operations[k], "path").value,
                                          Some(operations[k].members["value"]))];
      k := k + 1;
    }
    return Some(projected);
  }

  predicate RecordsSet(op: Json, p: Projected) {
    && TextAt(op, "op") == Some("set") && TextAt(op, "path") == Some(p.path) && p.documentId.Some? && TextAt(op, "document_id") == p.documentId
    && Get(op, "value").Some? && Get(op, "value") == p.value && p.op == "set" && p.target == "document"
  }

  function ReplayOperation(p: Projected): Json {
    OperationFor(p)
  }

  function ReplayOperations(ps: seq<Projected>): (r: seq<Json>)
    ensures |r| == |ps| && forall k :: 0 <= k < |r| ==> r[k] == ReplayOperation(ps[k])
  {
    seq(|ps|, k requires 0 <= k < |ps| => ReplayOperation(ps[k]))
  }

  /** The claimed material is the raw resolution's own and the artifact context belongs to it and to this context. */
  ghost predicate ReplayFits(w: World, c: Context, raw: Json, claimed: OperationMaterial, artifacts: Artifacts) {
    && Projectable(w.rules.strip, raw) && claimed.ReplayOf? && claimed.blob == raw && ProjectsTo(raw, claimed.operations)
    && Some(claimed.resolutionId) == TextAt(raw, "resolution_id") && Some(artifacts.replacementSet) == TextAt(raw, "replacement_set_id")
    && claimed.artifactSet == artifacts.artifactSet && claimed.references == artifacts.outputReferences
    && artifacts.sourceReferences == c.references
    && Resolvable(w.rules, c.theCase, claimed.resolutionId, ReplayOperations(claimed.operations), artifacts.indexed, artifacts.rebuilt)
  }

  /** `_validate_native_replay_material`: the claimed material is rebuilt from the raw resolution and compared. */
  method CheckMaterial(w: World, raw: Json, claimed: OperationMaterial, artifacts: Artifacts) returns (ok: bool)
    ensures ok <==>
      && Projectable(w.rules.strip, raw) && claimed.ReplayOf? && claimed.blob == raw && ProjectsTo(raw, claimed.operations)
      && Some(claimed.resolutionId) == TextAt(raw, "resolution_id")
      && claimed.artifactSet == artifacts.artifactSet && claimed.references == artifacts.outputReferences
  {
    hide Exact, RecordsSet, ReplayDecodable;
    var projected := ProjectResolution(w.rules.strip, raw);
    if projected.None? || !claimed.ReplayOf? {
      return false;
    }
    if ProjectsTo(raw, claimed.operations) {
      ProjectionUnique(raw, claimed.operations, projected.value);
    }
    return claimed == ReplayOf(raw, TextAt(raw, "resolution_id").value, projected.value, artifacts.artifactSet, artifacts.outputReferences, claimed.bindings);
  }

  lemma ProjectionUnique(raw: Json, a: seq<Projected>, b: seq<Projected>)
    requires ProjectsTo(raw, a) && ProjectsTo(raw, b)
    ensures a == b
  {
    forall k | 0 <= k < |a| ensures a[k] == b[k] {
      assert RecordsSet(raw.members["operations"].items[k], a[k]) && RecordsSet(raw.members["operations"].items[k], b[k]);
    }
  }

  /** The Case a replay yields is one the validator refuses. */
  ghost predicate YieldsInvalid(w: World, c: Context, claimed: OperationMaterial, artifacts: Artifacts)
    requires claimed.ReplayOf?
  {
    exists out :: IsResolution(c.theCase, out, claimed.resolutionId, artifacts.rebuilt, TouchedIds(ReplayOperations(claimed.operations)))
      && !w.rules.valid(out)
  }

  lemma YieldsThis(w: World, c: Context, claimed: OperationMaterial, artifacts: Artifacts, out: Json)
    requires claimed.ReplayOf? && MatchesIndex(w.rules, artifacts.rebuilt, artifacts.indexed)
    requires IsResolution(c.theCase, out, claimed.resolutionId, artifacts.rebuilt, TouchedIds(ReplayOperations(claimed.operations)))
    ensures YieldsInvalid(w, c, claimed, artifacts) <==> !w.rules.valid(out)
  {
    var touched := TouchedIds(ReplayOperations(claimed.operations));
    hide IsResolution, MatchesIndex, TouchedIds, ReplayOperations;
    forall other | IsResolution(c.theCase, other, claimed.resolutionId, artifacts.rebuilt, touched) ensures other == out {
      ResolutionUnique(w.rules, c.theCase, other, out, claimed.resolutionId, artifacts.rebuilt, touched, artifacts.indexed);
    }
  }

  lemma ResolvableMatches(rules: Rules, before: Json, resolutionId: string, operations: seq<Json>, indexed: seq<string>, rebuilt: seq<Json>)
    requires Resolvable(rules, before, resolutionId, operations, indexed, rebuilt)
    ensures MatchesIndex(rules, rebuilt, indexed)
  {
    hide PathsValid, MatchesIndex, Covers, Applied, FactsAgree, Replaced;
  }

  /** `_derive_case_source_native_replay`: `claimed` is the operation material the caller hands in. */
  method DeriveNativeReplay(w: World, c: Context, raw: Json, claimed: OperationMaterial, artifacts: Artifacts) returns (r: Outcome)
    requires Continuous(w, c) && Validating(w)
    ensures !r.SelfParent? && !r.Discontinuous?
    ensures r.Derived? <==> ReplayFits(w, c, raw, claimed, artifacts) && !YieldsInvalid(w, c, claimed, artifacts)
    ensures r.Derived? ==>
      && Continuous(w, r.context) && Extends(c, r.context)
      && artifacts.sourceReferences == c.references && r.context.references == artifacts.outputReferences
      && claimed.ReplayOf? && r.context.lineages[|c.lineages|].material == claimed
      && IsResolution(c.theCase, r.context.theCase, claimed.resolutionId, artifacts.rebuilt, TouchedIds(ReplayOperations(claimed.operations)))
  {
    HeldIsDistinct(w, c);
    hide Continuous, DistinctDocuments, IsResolution, Resolvable, Validating, YieldsInvalid, MatchesIndex, TouchedIds, ReplayOperations, ProjectsTo, Projectable, Extends;
    var material := CheckMaterial(w, raw, claimed, artifacts);
    if !material {
      return Rejected;
    }
    if Some(artifacts.replacementSet) != TextAt(raw, "replacement_set_id") || artifacts.sourceReferences != c.references {
      return Rejected;
    }
    var resolved := ResolveCase(w.rules, c.theCase, claimed.resolutionId, ReplayOperations(claimed.operations), artifacts.indexed, artifacts.rebuilt);
    if !resolved.Resolved? {
      return Rejected;
    }
    ResolvableMatches(w.rules, c.theCase, claimed.resolutionId, ReplayOperations(claimed.operations), artifacts.indexed, artifacts.rebuilt);
    YieldsThis(w, c, claimed, artifacts, resolved.theCase);
    r := Extend(w, c, NativeReplay, claimed, resolved.theCase, artifacts.outputReferences);
    if r.Derived? {
      ReplayMovesReferences(w, c, r.context);
    }
  }

  lemma ReplayMovesReferences(w: World, c: Context, d: Context)
    requires Continuous(w, d) && |d.lineages| == |c.lineages| + 1 && d.lineages[|c.lineages|].material.ReplayOf?
    ensures d.references == d.lineages[|c.lineages|].material.references
  {
    var n := |c.lineages|;
    assert d.lineages == d.lineages[..n] + [d.lineages[n]];
    ReferencesNext(d.rootReferences, d.lineages[..n], d.lineages[n]);
  }

  // ---------- Histories ----------

  datatype Operation = Mutate(raw: Json) | Replay(raw: Json, claimed: OperationMaterial, artifacts: Artifacts)

  /** The operation itself is at fault in this context. */
  ghost predicate Refuses(w: World, c: Context, operation: Operation) {
    match operation
    case Mutate(raw) => !MutationFits(w, c, raw)
    case Replay(raw, claimed, artifacts) => !ReplayFits(w, c, raw, claimed, artifacts) || YieldsInvalid(w, c, claimed, artifacts)
  }

  /** `n` entries more than `start`, on its root. */
  predicate Grown(start: Context, c: Context, n: nat) {
    && c.binding == start.binding && c.rootCase == start.rootCase
    && |c.lineages| == |start.lineages| + n && c.lineages[..|start.lineages|] == start.lineages
  }

  /** Any sequence of derivations from a continuous context: the context stays continuous and grows by one entry
      per operation, until an operation is itself at fault; a continuity error never stops it. */
  method RunHistory(w: World, start: Context, operations: seq<Operation>) returns (r: Outcome, done: nat, ghost reached: Context)
    requires Continuous(w, start) && Validating(w)
    ensures !r.SelfParent? && !r.Discontinuous?
    ensures Continuous(w, reached) && Grown(start, reached, done) && done <= |operations|
    ensures r.Derived? <==> done == |operations|
    ensures r.Derived? ==> r.context == reached
    ensures !r.Derived? ==> Refuses(w, reached, operations[done])
  {
    hide Continuous, IsResolution, Validating, MutationFits, ReplayFits, YieldsInvalid;
    r := Derived(start);
    done, reached := 0, start;
    while done < |operations|
      invariant 0 <= done <= |operations|
      invariant r.Derived? && r.context == reached && Continuous(w, reached) && Grown(start, reached, done)
    {
      var before := r.context;
      match operations[done] {
        case Mutate(raw) =>
          r := DeriveMutation(w, before, raw);
        case Replay(raw, claimed, artifacts) =>
          r := DeriveNativeReplay(w, before, raw, claimed, artifacts);
      }
      if !r.Derived? {
        return Rejected, done, reached;
      }
      assert r.context.lineages[..|before.lineages|][..|start.lineages|] == r.context.lineages[..|start.lineages|];
      done, reached := done + 1, r.context;
    }
  }

  /** A linked history is determined by its last lineage hash: same entries, same materials, same root. */
  lemma {:induction false} SameHashSameHistory(bindingA: Digest, rootA: Digest, a: seq<Entry>, bindingB: Digest, rootB: Digest, b: seq<Entry>)
    requires Linked(bindingA, rootA, a) && Linked(bindingB, rootB, b) && a != [] && b != []
    requires a[|a| - 1].hash == b[|b| - 1].hash
    ensures a == b && bindingA == bindingB && rootA == rootB
    decreases |a|
  {
    var m, n := |a| - 1, |b| - 1;
    assert Sound(a[m], bindingA) && Sound(b[n], bindingB);
    SameHashSameEntry(a[m], b[n], bindingA, bindingB);
    LastParent(bindingA, rootA, a);
    LastParent(bindingB, rootB, b);
    if m > 0 {
      LinkedFront(bindingA, rootA, a);
      LinkedFront(bindingB, rootB, b);
      SameHashSameHistory(bindingA, rootA, a[..m], bindingB, rootB, b[..n]);
    }
    assert a == a[..m] + [a[m]] && b == b[..n] + [b[n]];
  }

  lemma LastParent(binding: Digest, root: Digest, a: seq<Entry>)
    requires Linked(binding, root, a) && a != []
    ensures a[|a| - 1].parent.None? <==> |a| == 1
    ensures |a| > 1 ==> a[|a| - 1].parent == Some(a[|a| - 2].hash)
    ensures |a| == 1 ==> a[0].input == root
  {}

  lemma LinkedFront(binding: Digest, root: Digest, a: seq<Entry>)
    requires Linked(binding, root, a) && |a| > 1
    ensures Linked(binding, root, a[..|a| - 1])
  {}

  lemma SameHashSameEntry(x: Entry, y: Entry, bindingX: Digest, bindingY: Digest)
    requires Sound(x, bindingX) && Sound(y, bindingY) && x.hash == y.hash
    ensures x == y && bindingX == bindingY
  {}

  /** Equal terminal lineage hashes force equal histories, and with them equal held Cases up to listing order. */
  lemma TerminalHashFixesContext(w: World, c: Context, d: Context)
    requires Continuous(w, c) && Continuous(w, d) && c.lineages != [] && d.lineages != []
    requires c.lineages[|c.lineages| - 1].hash == d.lineages[|d.lineages| - 1].hash
    ensures c.lineages == d.lineages && c.binding == d.binding && c.rootCase == d.rootCase
    ensures w.projection(c.theCase) == w.projection(d.theCase)
  {
    hide Linked, ReferencesAfter;
    SameHashSameHistory(c.binding, c.rootCase, c.lineages, d.binding, d.rootCase, d.lineages);
  }
}

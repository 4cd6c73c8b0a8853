/** The one authoritative post-resolution Case: approved edits, then every touched document replaced by its
    rebuilt form. */
module Resolution {
  import opened Json
  import opened Mutations
  import opened Composition

  /** Text rules and the Case validator, left uninterpreted. `segment` is the test of one path segment. */
  datatype Rules = Rules(norm: string -> string, strip: string -> string, segment: string -> bool, valid: Json -> bool)

  const ALLOWED_FACT_ROOTS: set<string> := {"document_type", "revision", "status", "owner", "revision_date", "fields"}
  const FACTS: seq<string> := ["document_id", "document_type", "revision", "status", "owner", "revision_date", "fields"]

  // ---------- Operation paths ----------

  predicate Worded(rules: Rules, op: Json, name: string) {
    TextAt(op, name).Some? && rules.strip(TextAt(op, name).value) != ""
  }

  /** One operation of a resolution: a document fact, spelled canonically. */
  predicate FactOperation(rules: Rules, op: Json) {
    && op.Obj? && (Get(op, "target").None? || Get(op, "target") == Some(Str("document")))
    && Worded(rules, op, "document_id") && Worded(rules, op, "path")
    && var parts := Split(TextAt(op, "path").value);
      (forall k :: 0 <= k < |parts| ==> rules.segment(parts[k])) && parts[0] in ALLOWED_FACT_ROOTS
  }

  ghost predicate SaysText(rules: Rules, op: Json, name: string) {
    op.Obj? && name in op.members && op.members[name].Str? && rules.strip(op.members[name].s) != ""
  }

  /** An operation is accepted exactly when it is on a document it names and its path is well spelled and starts at
      one of the six facts a resolution may change. */
  lemma FactOperationIff(rules: Rules, op: Json)
    ensures FactOperation(rules, op) <==>
      && op.Obj? && ("target" !in op.members || op.members["target"] == Str("document"))
      && SaysText(rules, op, "document_id") && SaysText(rules, op, "path")
      && var parts := Split(op.members["path"].s);
         && (forall part :: part in parts ==> rules.segment(part))
         && (parts[0] == "document_type" || parts[0] == "revision" || parts[0] == "status" || parts[0] == "owner"
             || parts[0] == "revision_date" || parts[0] == "fields")
  {
    hide Split;
    if op.Obj? && "path" in op.members && op.members["path"].Str? {
      var parts := Split(op.members["path"].s);
      assert (forall k :: 0 <= k < |parts| ==> rules.segment(parts[k])) <==> forall part :: part in parts ==> rules.segment(part);
    }
  }

  function DocumentIdOf(op: Json): string {
    if TextAt(op, "document_id").Some? then TextAt(op, "document_id").value else ""
  }

  ghost function TouchedIds(operations: seq<Json>): set<string> {
    set k: nat | k < |operations| :: DocumentIdOf(operations[k])
  }

  ghost predicate PathsValid(rules: Rules, operations: seq<Json>) {
    && operations != []
    && (forall k :: 0 <= k < |operations| ==> FactOperation(rules, operations[k]))
    && (forall i, j :: 0 <= i < j < |operations| && rules.norm(DocumentIdOf(operations[i])) == rules.norm(DocumentIdOf(operations[j])) ==>
          DocumentIdOf(operations[i]) == DocumentIdOf(operations[j]))
  }

  /** `touched` maps each normalized identifier of the first operations to its one spelling. */
  ghost predicate TouchedBy(rules: Rules, operations: seq<Json>, n: nat, touched: map<string, string>)
    requires n <= |operations|
  {
    && (forall i :: 0 <= i < n ==> Spelled(rules, touched, DocumentIdOf(operations[i])))
    && (forall key :: key in touched ==> touched[key] in TouchedIds(operations) && rules.norm(touched[key]) == key)
  }

  ghost predicate Spelled(rules: Rules, touched: map<string, string>, id: string) {
    rules.norm(id) in touched && touched[rules.norm(id)] == id
  }

  lemma TouchedStep(rules: Rules, operations: seq<Json>, n: nat, touched: map<string, string>)
    requires n < |operations| && TouchedBy(rules, operations, n, touched)
    requires var id := DocumentIdOf(operations[n]); rules.norm(id) in touched ==> touched[rules.norm(id)] == id
    ensures var id := DocumentIdOf(operations[n]); TouchedBy(rules, operations, n + 1, touched[rules.norm(id) := id])
  {
    hide DocumentIdOf;
    assert DocumentIdOf(operations[n]) in TouchedIds(operations);
  }

  lemma SpelledTwice(rules: Rules, operations: seq<Json>, n: nat, touched: map<string, string>)
    requires n < |operations| && TouchedBy(rules, operations, n, touched)
    requires var id := DocumentIdOf(operations[n]); rules.norm(id) in touched && touched[rules.norm(id)] != id
    ensures !PathsValid(rules, operations)
  {
    hide DocumentIdOf, FactOperation;
    var other := touched[rules.norm(DocumentIdOf(operations[n]))];
    assert other in TouchedIds(operations);
    var i: nat :| i < |operations| && DocumentIdOf(operations[i]) == other;
    assert i < n || i > n;
  }

  lemma TouchedAll(rules: Rules, operations: seq<Json>, touched: map<string, string>)
    requires operations != [] && TouchedBy(rules, operations, |operations|, touched)
    requires forall i :: 0 <= i < |operations| ==> FactOperation(rules, operations[i])
    ensures PathsValid(rules, operations) && touched.Keys == Normalized(rules, TouchedIds(operations))
  {
    hide DocumentIdOf, FactOperation;
    forall i, j | 0 <= i < j < |operations| && rules.norm(DocumentIdOf(operations[i])) == rules.norm(DocumentIdOf(operations[j]))
      ensures DocumentIdOf(operations[i]) == DocumentIdOf(operations[j])
    {
      assert Spelled(rules, touched, DocumentIdOf(operations[i])) && Spelled(rules, touched, DocumentIdOf(operations[j]));
    }
    forall id | id in TouchedIds(operations) ensures rules.norm(id) in touched {
      var i: nat :| i < |operations| && DocumentIdOf(operations[i]) == id;
      assert Spelled(rules, touched, DocumentIdOf(operations[i]));
    }
  }

  /** `validate_resolution_operation_paths`: the touched identifiers by normalized identity. */
  method ValidateResolutionOperationPaths(rules: Rules, operations: seq<Json>) returns (r: Option<map<string, string>>)
    ensures r.Some? <==> PathsValid(rules, operations)
    ensures r.Some? ==> r.value.Keys == Normalized(rules, TouchedIds(operations))
    ensures r.Some? ==> forall key :: key in r.value ==> r.value[key] in TouchedIds(operations) && rules.norm(r.value[key]) == key
  {
    hide FactOperation, DocumentIdOf, TouchedIds, Normalized, Spelled;
    if operations == [] {
      return None;
    }
    var touched: map<string, string> := map[];
    var k := 0;
    while k < |operations|
      invariant 0 <= k <= |operations|
      invariant forall i :: 0 <= i < k ==> FactOperation(rules, operations[i])
      invariant TouchedBy(rules, operations, k, touched)
    {
      if !FactOperation(rules, operations[k]) {
        return None;
      }
      var id := DocumentIdOf(operations[k]);
      var key := rules.norm(id);
      if key in touched && touched[key] != id {
        SpelledTwice(rules, operations, k, touched);
        return None;
      }
      TouchedStep(rules, operations, k, touched);
      touched := touched[key := id];
      k := k + 1;
    }
    TouchedAll(rules, operations, touched);
    return Some(touched);
  }

  lemma FactKeepsIdentity(rules: Rules, op: Json)
    requires FactOperation(rules, op)
    ensures KeepsIdentity(op)
    ensures ReadOperation(op).Some? ==> ReadOperation(op).value.target == OnDocument(DocumentIdOf(op))
  {
    hide Split;
    assert "document_id" !in ALLOWED_FACT_ROOTS;
  }

  /** Accepted operation lists within the bound compose; the second may even be any list when the Case's marker is no
      object. */
  lemma AcceptedCompose(rules: Rules, theCase: Json, first: string, a: seq<Json>, second: string, b: seq<Json>)
    requires first != "" && second != "" && Fits(a, b)
    requires PathsValid(rules, a) && (PathsValid(rules, b) || !MarkerIsObject(theCase))
    ensures ComposesWith(theCase, first, a, second, b)
  {
    hide FactOperation, ReadOperation, ComposesWith;
    forall k | 0 <= k < |a| ensures Harmless(a[k]) {
      FactKeepsIdentity(rules, a[k]);
    }
    if PathsValid(rules, b) {
      forall k | 0 <= k < |b| ensures !ReadsMarker(b[k]) {
        FactKeepsIdentity(rules, b[k]);
      }
    }
    Composition.Composes(theCase, first, a, second, b);
  }

  // ---------- What the edits change ----------

  predicate Identified(items: seq<Json>) {
    forall k :: 0 <= k < |items| ==> TextAt(items[k], "document_id").Some?
  }

  function IdAt(items: seq<Json>, k: nat): string
    requires k < |items|
  {
    if TextAt(items[k], "document_id").Some? then TextAt(items[k], "document_id").value else ""
  }

  /** Same length and identifiers; documents outside `touched` untouched. */
  ghost predicate EditedOnly(before: seq<Json>, after: seq<Json>, touched: set<string>) {
    && |after| == |before|
    && (forall k :: 0 <= k < |before| ==> TextAt(after[k], "document_id") == TextAt(before[k], "document_id"))
    && (forall k :: 0 <= k < |before| && IdAt(before, k) !in touched ==> after[k] == before[k])
  }

  lemma StepFrame(m: Machine, step: Step)
    requires Current(m) && |step.parts| > 0 && step.target.OnDocument? && step.parts[0] != "document_id"
    requires Execute(m, step).Some?
    ensures var next := Execute(m, step).value;
      && step.target.id in m.index && Documents(next.tree).Some? && next.tree == WithDocuments(m.tree, Documents(next.tree).value)
      && EditedOnly(Documents(m.tree).value, Documents(next.tree).value, {step.target.id})
  {
    hide EditAt;
    var id := step.target.id;
    IndexPoints(Documents(m.tree).value, id);
    var items, at := Documents(m.tree).value, m.index[id].at;
    var edited := EditAt(items[at], step.parts, step.edit);
    EditTouchesRoot(items[at], step.parts, step.edit, "document_id");
    assert Documents(WithDocuments(m.tree, items[at := edited.value])) == Some(items[at := edited.value]);
  }

  lemma EditsCompose(a: seq<Json>, b: seq<Json>, c: seq<Json>, s: set<string>, t: set<string>)
    requires EditedOnly(a, b, s) && EditedOnly(b, c, t)
    ensures EditedOnly(a, c, s + t)
  {
    forall k | 0 <= k < |a| && IdAt(a, k) !in s + t ensures c[k] == a[k] {
      assert IdAt(b, k) == IdAt(a, k);
    }
  }

  ghost predicate Framed(m: Machine, done: Machine, operations: seq<Json>) {
    && m.tree.Obj? && Documents(m.tree).Some? && Documents(done.tree).Some?
    && done.tree == WithDocuments(m.tree, Documents(done.tree).value)
    && EditedOnly(Documents(m.tree).value, Documents(done.tree).value, TouchedIds(operations))
    && forall id :: id in TouchedIds(operations) ==> id in m.index
  }

  lemma FrameNext(m: Machine, next: Machine, done: Machine, op: Json, rest: seq<Json>)
    requires m.tree.Obj? && Documents(m.tree).Some? && Documents(next.tree).Some? && next.index == m.index
    requires next.tree == WithDocuments(m.tree, Documents(next.tree).value) && DocumentIdOf(op) in m.index
    requires EditedOnly(Documents(m.tree).value, Documents(next.tree).value, {DocumentIdOf(op)})
    requires Framed(next, done, rest)
    ensures Framed(m, done, [op] + rest)
  {
    var all := [op] + rest;
    EditsCompose(Documents(m.tree).value, Documents(next.tree).value, Documents(done.tree).value, {DocumentIdOf(op)}, TouchedIds(rest));
    assert TouchedIds(all) == {DocumentIdOf(op)} + TouchedIds(rest) by {
      assert all[0] == op && forall k :: 0 <= k < |rest| ==> all[k + 1] == rest[k];
      forall id | id in TouchedIds(all) ensures id in {DocumentIdOf(op)} + TouchedIds(rest) {
        var k: nat :| k < |all| && DocumentIdOf(all[k]) == id;
        assert k > 0 ==> rest[k - 1] == all[k];
      }
      forall id | id in TouchedIds(rest) ensures id in TouchedIds(all) {
        var k: nat :| k < |rest| && DocumentIdOf(rest[k]) == id;
        assert all[k + 1] == rest[k];
      }
    }
  }

  lemma ListedAgain(t: Json, u: Json)
    requires t.Obj? && Documents(u).Some? && u == WithDocuments(t, Documents(u).value)
    ensures u == WithDocuments(u, Documents(u).value)
  {}

  lemma {:induction false} RunFrame(rules: Rules, m: Machine, operations: seq<Json>)
    requires Current(m) && forall k :: 0 <= k < |operations| ==> FactOperation(rules, operations[k])
    requires operations == [] ==> m.tree == WithDocuments(m.tree, Documents(m.tree).value)
    requires Run(m, operations).Some?
    ensures Framed(m, Run(m, operations).value, operations)
    decreases |operations|
  {
    if operations != [] {
      var op := operations[0];
      FactKeepsIdentity(rules, op);
      var step := ReadOperation(op).value;
      hide FactOperation, ReadOperation, Execute, IndexFrom, Documents, TouchedIds, EditedOnly;
      StepFrame(m, step);
      StepKeepsCurrent(m, step);
      var next := Execute(m, step).value;
      ListedAgain(m.tree, next.tree);
      RunFrame(rules, next, operations[1..]);
      FrameNext(m, next, Run(m, operations).value, op, operations[1..]);
      assert operations == [op] + operations[1..];
    }
  }

  // ---------- Replacing the touched documents ----------

  /** Distinct identifiers, also after normalization: what validation established for the Case before. */
  ghost predicate DistinctDocuments(rules: Rules, items: seq<Json>) {
    Identified(items) && forall i, j :: 0 <= i < j < |items| ==> rules.norm(IdAt(items, i)) != rules.norm(IdAt(items, j))
  }

  function FactAt(document: Json, name: string): Json {
    if Get(document, name).Some? then Get(document, name).value else Null
  }

  /** Every compared fact equal as Python compares. */
  predicate SameFacts(expected: Json, rebuilt: Json) {
    forall k :: 0 <= k < |FACTS| ==> PyEq(FactAt(expected, FACTS[k]), FactAt(rebuilt, FACTS[k]))
  }

  /** `rebuilt` documents carry distinct identifiers that are exactly the indexed ones. */
  ghost predicate MatchesIndex(rules: Rules, rebuilt: seq<Json>, indexed: seq<string>) {
    && (forall k :: 0 <= k < |rebuilt| ==> TextAt(rebuilt[k], "document_id").Some? && IdAt(rebuilt, k) != "")
    && (forall i, j :: 0 <= i < j < |rebuilt| ==> rules.norm(IdAt(rebuilt, i)) != rules.norm(IdAt(rebuilt, j)))
    && |rebuilt| == |indexed|
    && RebuiltIds(rebuilt) == Members(indexed)
  }

  ghost function RebuiltIds(rebuilt: seq<Json>): set<string> {
    set k: nat | k < |rebuilt| :: IdAt(rebuilt, k)
  }

  ghost function Members(ids: seq<string>): set<string> {
    set k: nat | k < |ids| :: ids[k]
  }

  ghost function Normalized(rules: Rules, ids: set<string>): set<string> {
    set id | id in ids :: rules.norm(id)
  }

  method CheckIndex(rules: Rules, rebuilt: seq<Json>, indexed: seq<string>) returns (ok: bool)
    ensures ok <==> MatchesIndex(rules, rebuilt, indexed)
  {
    var ids: set<string> := {};
    var keys: set<string> := {};
    var k := 0;
    while k < |rebuilt|
      invariant 0 <= k <= |rebuilt|
      invariant forall i :: 0 <= i < k ==> TextAt(rebuilt[i], "document_id").Some? && IdAt(rebuilt, i) != ""
      invariant forall i, j :: 0 <= i < j < k ==> rules.norm(IdAt(rebuilt, i)) != rules.norm(IdAt(rebuilt, j))
      invariant ids == set i: nat | i < k :: IdAt(rebuilt, i)
      invariant forall key :: key in keys <==> exists i :: 0 <= i < k && rules.norm(IdAt(rebuilt, i)) == key
    {
      if TextAt(rebuilt[k], "document_id").None? || IdAt(rebuilt, k) == "" || rules.norm(IdAt(rebuilt, k)) in keys {
        return false;
      }
      ids, keys := ids + {IdAt(rebuilt, k)}, keys + {rules.norm(IdAt(rebuilt, k))};
      k := k + 1;
    }
    return |rebuilt| == |indexed| && ids == set i: nat | i < |indexed| :: indexed[i];
  }

  method FindDocument(items: seq<Json>, id: string) returns (r: Option<nat>)
    ensures r.Some? ==> r.value < |items| && TextAt(items[r.value], "document_id") == Some(id)
    ensures r.None? ==> forall k :: 0 <= k < |items| ==> TextAt(items[k], "document_id") != Some(id)
  {
    var k := 0;
    while k < |items|
      invariant 0 <= k <= |items|
      invariant forall i :: 0 <= i < k ==> TextAt(items[i], "document_id") != Some(id)
    {
      if TextAt(items[k], "document_id") == Some(id) {
        return Some(k);
      }
      k := k + 1;
    }
    return None;
  }

  /** The first `n` rebuilt documents are in place; the rest of the list is as the edits left it. */
  ghost predicate Replaced(edited: seq<Json>, now: seq<Json>, rebuilt: seq<Json>, n: nat)
    requires n <= |rebuilt|
  {
    && |now| == |edited|
    && (forall k :: 0 <= k < |edited| ==> TextAt(now[k], "document_id") == TextAt(edited[k], "document_id"))
    && (forall r :: 0 <= r < n ==> exists k :: 0 <= k < |now| && IdAt(edited, k) == IdAt(rebuilt, r))
    && (forall k, r :: 0 <= k < |edited| && 0 <= r < n && IdAt(edited, k) == IdAt(rebuilt, r) ==> now[k] == rebuilt[r])
    && (forall k :: 0 <= k < |edited| && (forall r :: 0 <= r < n ==> IdAt(edited, k) != IdAt(rebuilt, r)) ==> now[k] == edited[k])
  }

  /** Rebuilt document `r` stands for an edited one with the same facts. */
  ghost predicate StandsFor(edited: seq<Json>, rebuilt: seq<Json>, r: nat)
    requires r < |rebuilt|
  {
    exists k :: 0 <= k < |edited| && IdAt(edited, k) == IdAt(rebuilt, r) && SameFacts(edited[k], rebuilt[r])
  }

  ghost predicate FactsAgree(edited: seq<Json>, rebuilt: seq<Json>) {
    forall r :: 0 <= r < |rebuilt| ==> StandsFor(edited, rebuilt, r)
  }

  /** Before its turn a rebuilt document meets the edited one of its identifier. */
  lemma NotYetReplaced(rules: Rules, edited: seq<Json>, now: seq<Json>, rebuilt: seq<Json>, n: nat, at: nat)
    requires DistinctDocuments(rules, edited) && n < |rebuilt| && Replaced(edited, now, rebuilt, n) && at < |now|
    requires TextAt(now[at], "document_id") == Some(IdAt(rebuilt, n))
    requires forall i, j :: 0 <= i < j < |rebuilt| ==> rules.norm(IdAt(rebuilt, i)) != rules.norm(IdAt(rebuilt, j))
    ensures now[at] == edited[at]
    ensures StandsFor(edited, rebuilt, n) <==> SameFacts(edited[at], rebuilt[n])
  {
    hide SameFacts;
    assert IdAt(edited, at) == IdAt(rebuilt, n);
    forall r | 0 <= r < n ensures IdAt(rebuilt, r) != IdAt(rebuilt, n) {
      assert rules.norm(IdAt(rebuilt, r)) != rules.norm(IdAt(rebuilt, n));
    }
    forall k | 0 <= k < |edited| && IdAt(edited, k) == IdAt(rebuilt, n) ensures k == at {
      SameIdentitySamePlace(rules, edited, k, at);
    }
  }

  method ReplaceDocuments(rules: Rules, edited: seq<Json>, rebuilt: seq<Json>, ghost indexed: seq<string>) returns (r: Option<seq<Json>>)
    requires DistinctDocuments(rules, edited) && MatchesIndex(rules, rebuilt, indexed)
    ensures r.Some? <==> FactsAgree(edited, rebuilt)
    ensures r.Some? ==> Replaced(edited, r.value, rebuilt, |rebuilt|)
  {
    hide SameFacts;
    var documents := edited;
    var n := 0;
    while n < |rebuilt|
      invariant 0 <= n <= |rebuilt|
      invariant Replaced(edited, documents, rebuilt, n)
      invariant forall r :: 0 <= r < n ==> StandsFor(edited, rebuilt, r)
    {
      var found := FindDocument(documents, IdAt(rebuilt, n));
      if found.None? {
        NobodyStandsFor(edited, documents, rebuilt, n);
        return None;
      }
      NotYetReplaced(rules, edited, documents, rebuilt, n, found.value);
      if !SameFacts(documents[found.value], rebuilt[n]) {
        return None;
      }
      ReplaceOne(rules, edited, documents, rebuilt, n, found.value);
      documents := documents[found.value := rebuilt[n]];
      n := n + 1;
    }
    return Some(documents);
  }

  lemma NobodyStandsFor(edited: seq<Json>, now: seq<Json>, rebuilt: seq<Json>, n: nat)
    requires n < |rebuilt| && Replaced(edited, now, rebuilt, n) && TextAt(rebuilt[n], "document_id").Some? && IdAt(rebuilt, n) != ""
    requires forall k :: 0 <= k < |now| ==> TextAt(now[k], "document_id") != Some(IdAt(rebuilt, n))
    ensures !StandsFor(edited, rebuilt, n)
  {
    hide SameFacts;
    forall k | 0 <= k < |edited| ensures IdAt(edited, k) != IdAt(rebuilt, n) {
      assert TextAt(now[k], "document_id") == TextAt(edited[k], "document_id");
    }
  }

  /** Only one list is the replacement. */
  lemma ReplacementUnique(edited: seq<Json>, a: seq<Json>, b: seq<Json>, rebuilt: seq<Json>)
    requires Replaced(edited, a, rebuilt, |rebuilt|) && Replaced(edited, b, rebuilt, |rebuilt|)
    ensures a == b
  {
    forall k | 0 <= k < |edited| ensures a[k] == b[k] {
      if r :| 0 <= r < |rebuilt| && IdAt(edited, k) == IdAt(rebuilt, r) {
        assert a[k] == rebuilt[r];
      }
    }
  }

  lemma ReplaceOne(rules: Rules, edited: seq<Json>, now: seq<Json>, rebuilt: seq<Json>, n: nat, at: nat)
    requires DistinctDocuments(rules, edited) && n < |rebuilt| && Replaced(edited, now, rebuilt, n) && at < |now|
    requires TextAt(now[at], "document_id") == Some(IdAt(rebuilt, n)) && TextAt(rebuilt[n], "document_id").Some?
    requires forall i, j :: 0 <= i < j < |rebuilt| ==> rules.norm(IdAt(rebuilt, i)) != rules.norm(IdAt(rebuilt, j))
    ensures Replaced(edited, now[at := rebuilt[n]], rebuilt, n + 1)
  {
    var next := now[at := rebuilt[n]];
    assert IdAt(edited, at) == IdAt(rebuilt, n);
    forall r | 0 <= r < n + 1 ensures exists k :: 0 <= k < |next| && IdAt(edited, k) == IdAt(rebuilt, r) {
      if r == n {
        assert IdAt(edited, at) == IdAt(rebuilt, r);
      }
    }
    forall k | 0 <= k < |edited| && k != at ensures IdAt(edited, k) != IdAt(rebuilt, n) {
      assert k < at || at < k;
    }
    forall r | 0 <= r < n ensures IdAt(rebuilt, r) != IdAt(rebuilt, n) {
      assert rules.norm(IdAt(rebuilt, r)) != rules.norm(IdAt(rebuilt, n));
    }
  }

  // ---------- The resolved Case ----------

  /** The artifact context covers exactly the touched documents. */
  ghost predicate Covers(rules: Rules, operations: seq<Json>, indexed: seq<string>) {
    Normalized(rules, TouchedIds(operations)) == Normalized(rules, Members(indexed))
  }

  /** Touched documents are their rebuilt forms, all others are as before, in the same places. */
  ghost predicate Rebuilt(before: seq<Json>, after: seq<Json>, rebuilt: seq<Json>, touched: set<string>) {
    && |after| == |before|
    && (forall k :: 0 <= k < |before| ==> TextAt(after[k], "document_id") == TextAt(before[k], "document_id"))
    && (forall k :: 0 <= k < |before| ==>
          if IdAt(before, k) in touched then exists r :: 0 <= r < |rebuilt| && IdAt(rebuilt, r) == IdAt(before, k) && after[k] == rebuilt[r]
          else after[k] == before[k])
  }

  function RiskLevel(theCase: Json): Option<Json> {
    match Get(theCase, "event")
    case None => None
    case Some(event) => Get(event, "risk_level")
  }

  datatype Outcome = Refused | RiskReclassified | Resolved(theCase: Json)

  lemma ReplacementIsRebuild(rules: Rules, before: seq<Json>, edited: seq<Json>, after: seq<Json>, rebuilt: seq<Json>,
                             operations: seq<Json>, indexed: seq<string>, index: map<string, Slot>)
    requires DistinctDocuments(rules, before) && EditedOnly(before, edited, TouchedIds(operations))
    requires Replaced(edited, after, rebuilt, |rebuilt|) && MatchesIndex(rules, rebuilt, indexed) && Covers(rules, operations, indexed)
    requires IndexFrom(before) == Some(index) && forall id :: id in TouchedIds(operations) ==> id in index
    ensures Rebuilt(before, after, rebuilt, TouchedIds(operations))
  {
    hide IndexFrom, Replaced;
    ReplacedAt(edited, after, rebuilt, 0);
    forall k | 0 <= k < |before|
      ensures TextAt(after[k], "document_id") == TextAt(before[k], "document_id")
      ensures if IdAt(before, k) in TouchedIds(operations) then exists r :: 0 <= r < |rebuilt| && IdAt(rebuilt, r) == IdAt(before, k) && after[k] == rebuilt[r]
        else after[k] == before[k]
    {
      ReplacedAt(edited, after, rebuilt, k);
      assert IdAt(edited, k) == IdAt(before, k);
      if IdAt(before, k) in TouchedIds(operations) {
        var r := TouchedIsRebuilt(rules, before, edited, after, rebuilt, operations, indexed, k);
      } else if r :| 0 <= r < |rebuilt| && IdAt(rebuilt, r) == IdAt(edited, k) {
        UntouchedNotRebuilt(rules, before, rebuilt, operations, indexed, index, k, r);
      }
    }
  }

  lemma ReplacedAt(edited: seq<Json>, after: seq<Json>, rebuilt: seq<Json>, k: nat)
    requires Replaced(edited, after, rebuilt, |rebuilt|)
    ensures |after| == |edited|
    ensures k < |edited| ==> TextAt(after[k], "document_id") == TextAt(edited[k], "document_id")
    ensures k < |edited| ==> forall r :: 0 <= r < |rebuilt| && IdAt(edited, k) == IdAt(rebuilt, r) ==> after[k] == rebuilt[r]
    ensures k < |edited| && (forall r :: 0 <= r < |rebuilt| ==> IdAt(edited, k) != IdAt(rebuilt, r)) ==> after[k] == edited[k]
  {}

  lemma SameIdentitySamePlace(rules: Rules, items: seq<Json>, j: nat, k: nat)
    requires DistinctDocuments(rules, items) && j < |items| && k < |items| && rules.norm(IdAt(items, j)) == rules.norm(IdAt(items, k))
    ensures j == k
  {}

  /** A touched document has a rebuilt one: their normalized identifiers meet, and normalized identifiers tell
      the Case's documents apart. */
  lemma TouchedIsRebuilt(rules: Rules, before: seq<Json>, edited: seq<Json>, after: seq<Json>, rebuilt: seq<Json>,
                         operations: seq<Json>, indexed: seq<string>, k: nat) returns (r: nat)
    requires DistinctDocuments(rules, before) && EditedOnly(before, edited, TouchedIds(operations)) && k < |before|
    requires Replaced(edited, after, rebuilt, |rebuilt|) && MatchesIndex(rules, rebuilt, indexed) && Covers(rules, operations, indexed)
    requires IdAt(before, k) in TouchedIds(operations)
    ensures r < |rebuilt| && IdAt(rebuilt, r) == IdAt(before, k) && after[k] == rebuilt[r]
  {
    hide TouchedIds;
    var id := IdAt(before, k);
    assert rules.norm(id) in Normalized(rules, TouchedIds(operations));
    var other :| other in Members(indexed) && rules.norm(other) == rules.norm(id);
    assert other in RebuiltIds(rebuilt);
    r :| r < |rebuilt| && IdAt(rebuilt, r) == other;
    var j :| 0 <= j < |after| && IdAt(edited, j) == IdAt(rebuilt, r);
    assert IdAt(before, j) == IdAt(edited, j) && IdAt(before, k) == IdAt(edited, k);
    SameIdentitySamePlace(rules, before, j, k);
  }

  /** An untouched document has none. */
  lemma UntouchedNotRebuilt(rules: Rules, before: seq<Json>, rebuilt: seq<Json>, operations: seq<Json>, indexed: seq<string>,
                            index: map<string, Slot>, k: nat, r: nat)
    requires DistinctDocuments(rules, before) && MatchesIndex(rules, rebuilt, indexed) && Covers(rules, operations, indexed)
    requires k < |before| && r < |rebuilt| && IdAt(rebuilt, r) == IdAt(before, k)
    requires IndexFrom(before) == Some(index) && forall id :: id in TouchedIds(operations) ==> id in index
    ensures IdAt(before, k) in TouchedIds(operations)
  {
    hide TouchedIds, IndexFrom;
    var id := IdAt(before, k);
    assert id in RebuiltIds(rebuilt);
    assert id in Members(indexed);
    assert rules.norm(id) in Normalized(rules, Members(indexed));
    var t :| t in TouchedIds(operations) && rules.norm(t) == rules.norm(id);
    IndexPoints(before, t);
    var at := index[t].at;
    assert IdAt(before, at) == t;
    SameIdentitySamePlace(rules, before, at, k);
  }

  /** What the resolved Case is, member by member. */
  ghost predicate IsResolution(before: Json, after: Json, resolutionId: string, rebuilt: seq<Json>, touched: set<string>) {
    && before.Obj? && Documents(before).Some? && after.Obj? && Documents(after).Some?
    && Rebuilt(Documents(before).value, Documents(after).value, rebuilt, touched)
    && after == Obj((before.members - {"active_mutation"})["documents" := Arr(Documents(after).value)]["applied_resolution" := Str(resolutionId)])
  }

  lemma RebuiltOnce(rules: Rules, rebuilt: seq<Json>, indexed: seq<string>, i: nat, j: nat)
    requires MatchesIndex(rules, rebuilt, indexed) && i < |rebuilt| && j < |rebuilt| && IdAt(rebuilt, i) == IdAt(rebuilt, j)
    ensures i == j
  {
    hide IdAt;
    assert i < j || j < i || i == j;
  }

  /** What a resolution ends in is determined by the Case, the rebuilt documents and the touched identifiers. */
  lemma ResolutionUnique(rules: Rules, before: Json, x: Json, y: Json, resolutionId: string, rebuilt: seq<Json>, touched: set<string>,
                         indexed: seq<string>)
    requires MatchesIndex(rules, rebuilt, indexed)
    requires IsResolution(before, x, resolutionId, rebuilt, touched) && IsResolution(before, y, resolutionId, rebuilt, touched)
    ensures x == y
  {
    var a, b, documents := Documents(x).value, Documents(y).value, Documents(before).value;
    hide MatchesIndex, IdAt;
    forall k | 0 <= k < |a| ensures a[k] == b[k] {
      if IdAt(documents, k) in touched {
        var i :| 0 <= i < |rebuilt| && IdAt(rebuilt, i) == IdAt(documents, k) && a[k] == rebuilt[i];
        var j :| 0 <= j < |rebuilt| && IdAt(rebuilt, j) == IdAt(documents, k) && b[k] == rebuilt[j];
        RebuiltOnce(rules, rebuilt, indexed, i, j);
      }
    }
    assert a == b;
  }

  /** The conditions under which a resolution goes through. */
  ghost predicate Resolvable(rules: Rules, before: Json, resolutionId: string, operations: seq<Json>, indexed: seq<string>, rebuilt: seq<Json>) {
    && rules.strip(resolutionId) != "" && PathsValid(rules, operations) && |operations| <= MAX_MUTATION_OPERATIONS
    && Covers(rules, operations, indexed) && |Normalized(rules, TouchedIds(operations))| == |indexed|
    && MatchesIndex(rules, rebuilt, indexed)
    && var proposed := Applied(before, "resolution:" + resolutionId, operations);
      && proposed.Some? && Documents(proposed.value).Some? && proposed.value.Obj?
      && FactsAgree(Documents(proposed.value).value, rebuilt)
      && forall ds :: Replaced(Documents(proposed.value).value, ds, rebuilt, |rebuilt|) ==> rules.valid(WithDocuments(proposed.value, ds))
  }

  /** `resolve_case_from_artifact_context`: on a Case with distinct documents, a resolution changes only the
      touched documents, the removed mutation marker and the added resolution marker; reclassifying the
      event's risk is never what stops it. */
  method ResolveCase(rules: Rules, before: Json, resolutionId: string, operations: seq<Json>, indexed: seq<string>, rebuilt: seq<Json>)
    returns (outcome: Outcome)
    requires before.Obj? && Documents(before).Some? && DistinctDocuments(rules, Documents(before).value)
    ensures !outcome.RiskReclassified?
    ensures outcome.Resolved? <==> Resolvable(rules, before, resolutionId, operations, indexed, rebuilt)
    ensures outcome.Resolved? ==> IsResolution(before, outcome.theCase, resolutionId, rebuilt, TouchedIds(operations))
    ensures outcome.Resolved? ==> RiskLevel(outcome.theCase) == RiskLevel(before) && Get(outcome.theCase, "event") == Get(before, "event")
  {
    hide DistinctDocuments, MatchesIndex, Replaced, EditedOnly, IndexFrom, Execute, PathsValid, IsResolution, Rebuilt, Framed, Applied, FactsAgree, TouchedIds;
    if rules.strip(resolutionId) == "" {
      return Refused;
    }
    var touched := ValidateResolutionOperationPaths(rules, operations);
    if touched.None? {
      return Refused;
    }
    var indexedKeys := set k: nat | k < |indexed| :: rules.norm(indexed[k]);
    if touched.value.Keys != indexedKeys || |touched.value| != |indexed| || |operations| > MAX_MUTATION_OPERATIONS {
      return Refused;
    }
    assert indexedKeys == Normalized(rules, Members(indexed));
    assert Covers(rules, operations, indexed);
    var proposed := Edited(before, resolutionId, operations);
    if proposed.None? {
      return Refused;
    }
    ghost var done := EditedFrame(rules, before, resolutionId, operations);
    var matches := CheckIndex(rules, rebuilt, indexed);
    if !matches {
      return Refused;
    }
    var items := Documents(proposed.value);
    EditedDistinct(rules, Documents(before).value, items.value, TouchedIds(operations));
    var replaced := ReplaceDocuments(rules, items.value, rebuilt, indexed);
    if replaced.None? {
      return Refused;
    }
    var complete := WithDocuments(proposed.value, replaced.value);
    forall ds | Replaced(items.value, ds, rebuilt, |rebuilt|) ensures ds == replaced.value {
      ReplacementUnique(items.value, ds, replaced.value, rebuilt);
    }
    if !rules.valid(complete) {
      return Refused;
    }
    ReplacementIsRebuild(rules, Documents(before).value, items.value, replaced.value, rebuilt, operations, indexed, done.index);
    Finishes(before, proposed.value, items.value, replaced.value, resolutionId, rebuilt, TouchedIds(operations));
    if RiskLevel(complete) != RiskLevel(before) {
      return RiskReclassified;
    }
    return Resolved(Obj((complete.members - {"active_mutation"})["applied_resolution" := Str(resolutionId)]));
  }

  /** The mutation a resolution applies. */
  method Edited(before: Json, resolutionId: string, operations: seq<Json>) returns (proposed: Option<Json>)
    requires |operations| <= MAX_MUTATION_OPERATIONS
    ensures proposed == Applied(before, "resolution:" + resolutionId, operations)
  {
    hide Applied;
    var mutation := Obj(map["mutation_id" := Str("resolution:" + resolutionId), "operations" := Arr(operations)]);
    assert TextAt(mutation, "mutation_id") == Some("resolution:" + resolutionId) && Get(mutation, "operations") == Some(Arr(operations));
    assert ("resolution:" + resolutionId)[0] == 'r';
    proposed := ApplyMutation(before, mutation);
  }

  lemma EditedFrame(rules: Rules, before: Json, resolutionId: string, operations: seq<Json>) returns (start: Machine)
    requires before.Obj? && Documents(before).Some? && PathsValid(rules, operations)
    requires Applied(before, "resolution:" + resolutionId, operations).Some?
    ensures IndexFrom(Documents(before).value) == Some(start.index)
    ensures var after := Applied(before, "resolution:" + resolutionId, operations).value;
      && Documents(after).Some? && EditedOnly(Documents(before).value, Documents(after).value, TouchedIds(operations))
      && after == Marked(WithDocuments(before, Documents(after).value), "resolution:" + resolutionId)
    ensures forall id :: id in TouchedIds(operations) ==> id in start.index
  {
    hide IndexFrom, Execute, EditedOnly;
    start := Begin(before).value;
    StartsCurrent(before);
    RunFrame(rules, start, operations);
    var tree := Run(start, operations).value.tree;
    assert Documents(Marked(tree, "resolution:" + resolutionId)) == Documents(tree);
  }

  lemma EditedDistinct(rules: Rules, before: seq<Json>, after: seq<Json>, touched: set<string>)
    requires DistinctDocuments(rules, before) && EditedOnly(before, after, touched)
    ensures DistinctDocuments(rules, after)
  {
    forall k | 0 <= k < |after| ensures IdAt(after, k) == IdAt(before, k) {}
  }

  lemma Finishes(before: Json, proposed: Json, items: seq<Json>, replaced: seq<Json>, resolutionId: string, rebuilt: seq<Json>, touched: set<string>)
    requires before.Obj? && Documents(before).Some? && proposed == Marked(WithDocuments(before, items), "resolution:" + resolutionId)
    requires Rebuilt(Documents(before).value, replaced, rebuilt, touched)
    ensures var complete := WithDocuments(proposed, replaced);
      && RiskLevel(complete) == RiskLevel(before)
      && IsResolution(before, Obj((complete.members - {"active_mutation"})["applied_resolution" := Str(resolutionId)]), resolutionId, rebuilt, touched)
      && Get(Obj((complete.members - {"active_mutation"})["applied_resolution" := Str(resolutionId)]), "event") == Get(before, "event")
  {
    hide Rebuilt;
    var complete := WithDocuments(proposed, replaced);
    assert Get(complete, "event") == Get(before, "event");
    var after := Obj((complete.members - {"active_mutation"})["applied_resolution" := Str(resolutionId)]);
    assert Documents(after) == Some(replaced);
    assert complete.members - {"active_mutation"} == (before.members - {"active_mutation"})["documents" := Arr(replaced)];
  }
}

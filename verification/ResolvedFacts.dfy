/** What a resolved Case says: the approved edits, up to Python equality, and otherwise the facts of the Case before. */
module ResolvedFacts {
  import opened Json
  import opened Mutations
  import opened Composition
  import opened Effects
  import opened Resolution

  // ---------- Facts compared ----------

  /** Absent and null facts are one to the comparison. */
  function Held(path: seq<string>, found: Option<Json>): Option<Json> {
    if |path| == 1 && found == Some(Null) then None else found
  }

  /** The two readings of a path agree as Python compares. */
  predicate SameHeld(path: seq<string>, a: Option<Json>, b: Option<Json>) {
    var x, y := Held(path, a), Held(path, b);
    (x.Some? <==> y.Some?) && (x.Some? ==> PyEq(x.value, y.value))
  }

  predicate IsFact(name: string) {
    || name == "document_type" || name == "revision" || name == "status" || name == "owner" || name == "revision_date" || name == "fields"
  }

  /** Exactly the identifier and the six facts are compared. */
  lemma FactsCompared(expected: Json, rebuilt: Json)
    ensures SameFacts(expected, rebuilt) <==>
      && PyEq(FactAt(expected, "document_id"), FactAt(rebuilt, "document_id"))
      && forall name :: IsFact(name) ==> PyEq(FactAt(expected, name), FactAt(rebuilt, name))
  {
    hide FactAt, PyEq;
    assert FACTS[0] == "document_id" && FACTS[1] == "document_type" && FACTS[2] == "revision" && FACTS[3] == "status"
      && FACTS[4] == "owner" && FACTS[5] == "revision_date" && FACTS[6] == "fields" && |FACTS| == 7;
    if SameFacts(expected, rebuilt) {
      forall name | IsFact(name) ensures PyEq(FactAt(expected, name), FactAt(rebuilt, name)) {
        assert exists k :: 0 <= k < |FACTS| && FACTS[k] == name;
      }
    } else {
      var k :| 0 <= k < |FACTS| && !PyEq(FactAt(expected, FACTS[k]), FactAt(rebuilt, FACTS[k]));
      assert k != 0 ==> IsFact(FACTS[k]);
    }
  }

  lemma {:induction false} EqualLookup(a: Json, b: Json, path: seq<string>)
    requires PyEq(a, b)
    ensures Lookup(a, path).Some? <==> Lookup(b, path).Some?
    ensures Lookup(a, path).Some? ==> PyEq(Lookup(a, path).value, Lookup(b, path).value)
    decreases |path|
  {
    if path != [] {
      if a.Obj? && b.Obj? && path[0] in a.members {
        EqualLookup(a.members[path[0]], b.members[path[0]], path[1..]);
      }
    }
  }

  lemma FactLookup(document: Json, path: seq<string>)
    requires path != []
    ensures |path| == 1 ==> Held(path, Lookup(document, path)) == Held(path, Some(FactAt(document, path[0])))
    ensures |path| > 1 ==> Lookup(document, path) == Lookup(FactAt(document, path[0]), path[1..])
  {
    assert |path| == 1 ==> path[1..] == [];
    assert |path| > 1 ==> Lookup(Null, path[1..]).None?;
  }

  /** Documents with the same facts agree on every path of every fact. */
  lemma SameFactsRead(expected: Json, rebuilt: Json, path: seq<string>)
    requires SameFacts(expected, rebuilt) && path != [] && IsFact(path[0])
    ensures SameHeld(path, Lookup(rebuilt, path), Lookup(expected, path))
  {
    FactsCompared(expected, rebuilt);
    FactLookup(expected, path);
    FactLookup(rebuilt, path);
    var x, y := FactAt(expected, path[0]), FactAt(rebuilt, path[0]);
    PyEqSymmetric(x, y);
    EqualLookup(y, x, path[1..]);
    hide FactAt, SameFacts, Lookup;
    if |path| == 1 {
      assert y == Null <==> x == Null;
    }
  }

  // ---------- Places of documents ----------

  lemma {:induction false} LastIs(items: seq<Json>, id: string)
    ensures LastWith(items, id).Some? ==> LastWith(items, id).value < |items| && TextAt(items[LastWith(items, id).value], "document_id") == Some(id)
  {
    if items != [] {
      LastIs(items[..|items| - 1], id);
    }
  }

  lemma FactWrites(rules: Rules, op: Json)
    requires FactOperation(rules, op) && ReadOperation(op).Some?
    ensures Writes(op) == InDocument(DocumentIdOf(op), Split(TextAt(op, "path").value)) && IsFact(Split(TextAt(op, "path").value)[0])
  {
    FactKeepsIdentity(rules, op);
    hide Split;
  }

  lemma FactsKeepList(rules: Rules, start: Machine, operations: seq<Json>)
    requires PathsValid(rules, operations) && Ready(start) && Run(start, operations).Some?
    ensures KeepsList(operations) && forall k :: 0 <= k < |operations| ==> ReadOperation(operations[k]).Some?
  {
    hide FactOperation, ReadOperation, Writes, Ready;
    forall k | 0 <= k < |operations| ensures ReadOperation(operations[k]).Some? && Writes(operations[k]).InDocument? {
      AllRead(start, operations, k);
      FactWrites(rules, operations[k]);
    }
  }

  lemma {:induction false} AllRead(m: Machine, operations: seq<Json>, k: nat)
    requires Ready(m) && Run(m, operations).Some? && k < |operations|
    ensures ReadOperation(operations[k]).Some?
    decreases |operations|
  {
    hide Execute, Ready, ReadOperation, Run;
    var step, next := FirstStep(m, operations);
    if k > 0 {
      AllRead(next, operations[1..], k - 1);
      assert operations[1..][k - 1] == operations[k];
    }
  }

  /** Document by document, the resolved Case agrees with the edited one. */
  lemma ResolvedDocument(rules: Rules, before: Json, out: Json, resolutionId: string, operations: seq<Json>, indexed: seq<string>,
                         rebuilt: seq<Json>, at: nat)
    requires before.Obj? && Documents(before).Some? && DistinctDocuments(rules, Documents(before).value)
    requires Resolvable(rules, before, resolutionId, operations, indexed, rebuilt)
    requires IsResolution(before, out, resolutionId, rebuilt, TouchedIds(operations)) && at < |Documents(before).value|
    ensures var edited := Documents(Applied(before, "resolution:" + resolutionId, operations).value);
      && edited.Some? && at < |edited.value| && at < |Documents(out).value|
      && (SameFacts(edited.value[at], Documents(out).value[at]) || edited.value[at] == Documents(out).value[at])
  {
    var items, after := Documents(before).value, Documents(out).value;
    var edited := Documents(Applied(before, "resolution:" + resolutionId, operations).value).value;
    hide Applied, SameFacts, TouchedIds, MatchesIndex, Covers, PathsValid, Normalized, IndexFrom;
    var start := EditedFrame(rules, before, resolutionId, operations);
    EditedDistinct(rules, items, edited, TouchedIds(operations));
    if IdAt(items, at) in TouchedIds(operations) {
      var r :| 0 <= r < |rebuilt| && IdAt(rebuilt, r) == IdAt(items, at) && after[at] == rebuilt[r];
      assert StandsFor(edited, rebuilt, r);
      var k :| 0 <= k < |edited| && IdAt(edited, k) == IdAt(rebuilt, r) && SameFacts(edited[k], rebuilt[r]);
      assert IdAt(edited, at) == IdAt(items, at);
      SameIdentitySamePlace(rules, edited, k, at);
    }
  }

  /** What a document place holds in the resolved Case is what it holds in the edited one. */
  lemma ResolvedReads(rules: Rules, before: Json, out: Json, resolutionId: string, operations: seq<Json>, indexed: seq<string>,
                      rebuilt: seq<Json>, id: string, path: seq<string>)
    requires before.Obj? && Documents(before).Some? && DistinctDocuments(rules, Documents(before).value)
    requires Resolvable(rules, before, resolutionId, operations, indexed, rebuilt)
    requires IsResolution(before, out, resolutionId, rebuilt, TouchedIds(operations)) && path != [] && IsFact(path[0])
    ensures SameHeld(path, CaseReads(before, out, InDocument(id, path)),
                     CaseReads(before, Applied(before, "resolution:" + resolutionId, operations).value, InDocument(id, path)))
  {
    var at := LastWith(Documents(before).value, id);
    LastIs(Documents(before).value, id);
    if at.Some? {
      ResolvedDocument(rules, before, out, resolutionId, operations, indexed, rebuilt, at.value);
      var edited := Documents(Applied(before, "resolution:" + resolutionId, operations).value).value;
      var x, y := edited[at.value], Documents(out).value[at.value];
      hide Resolvable, IsResolution, DistinctDocuments, Applied, SameFacts, Lookup, LastWith, Documents, IsFact;
      if SameFacts(x, y) {
        SameFactsRead(x, y, path);
      } else {
        SameHeldReflexive(path, Lookup(x, path));
      }
    }
  }

  lemma SameHeldReflexive(path: seq<string>, a: Option<Json>)
    ensures SameHeld(path, a, a)
  {
    if a.Some? { PyEqReflexive(a.value); }
  }

  lemma ResolvableRuns(rules: Rules, before: Json, resolutionId: string, operations: seq<Json>, indexed: seq<string>, rebuilt: seq<Json>)
    requires Resolvable(rules, before, resolutionId, operations, indexed, rebuilt)
    ensures PathsValid(rules, operations) && Applied(before, "resolution:" + resolutionId, operations).Some?
    ensures Begin(before).Some? && Ready(Begin(before).value) && Run(Begin(before).value, operations).Some?
    ensures KeepsList(operations) && forall k :: 0 <= k < |operations| ==> ReadOperation(operations[k]).Some?
  {
    hide PathsValid, MatchesIndex, Covers, FactsAgree, Replaced, Begin, Run;
    BeginsReady(before);
    FactsKeepList(rules, Begin(before).value, operations);
  }

  /** The approved edits are in the resolved Case: where no later operation on the document overlaps, its path holds
      what the operation set, as Python compares, or nothing after a deletion. */
  lemma ResolvedHolds(rules: Rules, before: Json, out: Json, resolutionId: string, operations: seq<Json>, indexed: seq<string>,
                      rebuilt: seq<Json>, k: nat)
    requires before.Obj? && Documents(before).Some? && DistinctDocuments(rules, Documents(before).value)
    requires Resolvable(rules, before, resolutionId, operations, indexed, rebuilt)
    requires IsResolution(before, out, resolutionId, rebuilt, TouchedIds(operations))
    requires k < |operations| && Spared(operations[k + 1..], Writes(operations[k]))
    ensures Writes(operations[k]).InDocument?
    ensures SameHeld(Writes(operations[k]).path, CaseReads(before, out, Writes(operations[k])), Leaves(operations[k]))
  {
    ResolvableRuns(rules, before, resolutionId, operations, indexed, rebuilt);
    FactWrites(rules, operations[k]);
    var start, place := Begin(before).value, Writes(operations[k]);
    hide Run, Begin, Ready, ReadOperation, Writes, Leaves, Spared, KeepsList, Resolvable, IsResolution, Applied, DistinctDocuments, IsFact, CaseReads, ReadAt;
    RunLeaves(start, operations, k);
    RunIsCase(before, "resolution:" + resolutionId, operations, place);
    ResolvedReads(rules, before, out, resolutionId, operations, indexed, rebuilt, place.id, place.path);
  }

  /** Every part of a fact that no operation reaches is, as Python compares, what it was. */
  lemma ResolvedKeeps(rules: Rules, before: Json, out: Json, resolutionId: string, operations: seq<Json>, indexed: seq<string>,
                      rebuilt: seq<Json>, id: string, path: seq<string>)
    requires before.Obj? && Documents(before).Some? && DistinctDocuments(rules, Documents(before).value)
    requires Resolvable(rules, before, resolutionId, operations, indexed, rebuilt)
    requires IsResolution(before, out, resolutionId, rebuilt, TouchedIds(operations))
    requires path != [] && IsFact(path[0]) && Spared(operations, InDocument(id, path))
    ensures SameHeld(path, CaseReads(before, out, InDocument(id, path)), CaseReads(before, before, InDocument(id, path)))
  {
    ResolvableRuns(rules, before, resolutionId, operations, indexed, rebuilt);
    var start, place := Begin(before).value, InDocument(id, path);
    hide Run, Begin, Ready, ReadOperation, Writes, Spared, KeepsList, Resolvable, IsResolution, Applied, DistinctDocuments, IsFact, CaseReads, ReadAt;
    RunKeeps(start, operations, place);
    RunIsCase(before, "resolution:" + resolutionId, operations, place);
    ResolvedReads(rules, before, out, resolutionId, operations, indexed, rebuilt, id, path);
  }
}

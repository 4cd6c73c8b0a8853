/** The two gates an approval passes: assertions joined to records, and records authenticated. */
module ApprovalGate {
  import opened Json
  import opened Ordering
  import opened Authenticity

  /** A shape-checked assertion; times keep their text. */
  datatype Assertion = Assertion(approvalId: string, subjectHash: string, role: string, recordId: string, recordHash: string,
                                 approver: string, issuedAt: string, effectiveFrom: string, expiresAt: string)

  /** A record claim of the sealed record context. */
  datatype Claim = Claim(recordId: string, contentHash: string, approver: string, role: string, purpose: string, scope: string,
                         effectiveFrom: string, expiresAt: string)

  datatype Subject = Subject(hash: string, roles: set<string>, purpose: string, scope: string)

  // ---------- `validate_approval_assertion_shape` ----------

  const ROLES: set<string> := {"PROCESS_OWNER", "QUALITY_MANAGER"}

  predicate Shaped(w: World, a: Assertion) {
    a.role in ROLES && w.at(a.effectiveFrom) <= w.at(a.issuedAt) <= w.at(a.expiresAt)
  }

  /** One of the two roles, issued no earlier than it takes effect and no later than it expires. */
  ghost predicate Formed(w: World, a: Assertion) {
    && (a.role == "PROCESS_OWNER" || a.role == "QUALITY_MANAGER")
    && w.at(a.effectiveFrom) <= w.at(a.issuedAt) && w.at(a.issuedAt) <= w.at(a.expiresAt)
  }

  lemma ShapedIff(w: World, a: Assertion)
    ensures Shaped(w, a) <==> Formed(w, a)
  {}

  // ---------- `validate_approval_assertions` ----------

  /** The assertion repeats the record's identity, content and validity for this subject. */
  predicate Joins(s: Subject, a: Assertion, c: Claim) {
    && a.recordId == c.recordId && a.recordHash == c.contentHash && a.approver == c.approver && a.role == c.role
    && c.purpose == s.purpose && c.scope == s.scope && a.effectiveFrom == c.effectiveFrom && a.expiresAt == c.expiresAt
  }

  /** The claim is the one the assertion names, made for this subject's purpose and scope, with one content,
      approver, role and validity in both. */
  ghost predicate Backs(s: Subject, a: Assertion, c: Claim) {
    && c == Claim(a.recordId, a.recordHash, a.approver, a.role, c.purpose, c.scope, a.effectiveFrom, a.expiresAt)
    && (c.purpose, c.scope) == (s.purpose, s.scope)
  }

  lemma JoinsIff(s: Subject, a: Assertion, c: Claim)
    ensures Joins(s, a, c) <==> Backs(s, a, c)
  {}

  ghost predicate ClaimsDistinct(w: World, claims: seq<Claim>) {
    forall i, j :: 0 <= i < j < |claims| ==> w.norm(claims[i].recordId) != w.norm(claims[j].recordId)
  }

  ghost predicate JoinsSome(s: Subject, a: Assertion, claims: seq<Claim>) {
    exists k :: 0 <= k < |claims| && Backs(s, a, claims[k])
  }

  ghost predicate AssertionOk(w: World, s: Subject, claims: seq<Claim>, a: Assertion) {
    Formed(w, a) && a.subjectHash == s.hash && a.role in s.roles && JoinsSome(s, a, claims)
  }

  ghost predicate RolesOnce(assertions: seq<Assertion>) {
    forall i, j :: 0 <= i < j < |assertions| ==> assertions[i].role != assertions[j].role
  }

  ghost predicate ApprovalsOnce(w: World, assertions: seq<Assertion>) {
    forall i, j :: 0 <= i < j < |assertions| ==> w.norm(assertions[i].approvalId) != w.norm(assertions[j].approvalId)
  }

  ghost function RoleSet(assertions: seq<Assertion>): set<string> {
    set k: nat | k < |assertions| :: assertions[k].role
  }

  /** What the first gate accepts. `digest` is the assertion hash. */
  ghost predicate Approved(w: World, s: Subject, claims: seq<Claim>, assertions: seq<Assertion>, digest: Assertion -> string) {
    && assertions != [] && ClaimsDistinct(w, claims)
    && (forall k :: 0 <= k < |assertions| ==> AssertionOk(w, s, claims, assertions[k]))
    && RolesOnce(assertions) && ApprovalsOnce(w, assertions) && RoleSet(assertions) == s.roles
    && (forall i, j :: 0 <= i < j < |assertions| ==> digest(assertions[i]) != digest(assertions[j]))
  }

  ghost predicate ClaimIndex(w: World, claims: seq<Claim>, index: map<string, Claim>, n: nat)
    requires n <= |claims|
  {
    && (forall k :: 0 <= k < n ==> w.norm(claims[k].recordId) in index && index[w.norm(claims[k].recordId)] == claims[k])
    && (forall key :: key in index ==> exists k :: 0 <= k < n && w.norm(claims[k].recordId) == key)
  }

  method IndexClaims(w: World, claims: seq<Claim>) returns (r: Option<map<string, Claim>>)
    ensures r.Some? <==> ClaimsDistinct(w, claims)
    ensures r.Some? ==> ClaimIndex(w, claims, r.value, |claims|)
  {
    var index: map<string, Claim> := map[];
    var k := 0;
    while k < |claims|
      invariant 0 <= k <= |claims| && ClaimIndex(w, claims, index, k)
      invariant forall i, j :: 0 <= i < j < k ==> w.norm(claims[i].recordId) != w.norm(claims[j].recordId)
    {
      if w.norm(claims[k].recordId) in index {
        return None;
      }
      index := index[w.norm(claims[k].recordId) := claims[k]];
      k := k + 1;
    }
    return Some(index);
  }

  lemma JoinByIndex(w: World, s: Subject, claims: seq<Claim>, index: map<string, Claim>, a: Assertion)
    requires ClaimIndex(w, claims, index, |claims|)
    ensures JoinsSome(s, a, claims) <==> w.norm(a.recordId) in index && Joins(s, a, index[w.norm(a.recordId)])
  {
    if w.norm(a.recordId) in index {
      var k :| 0 <= k < |claims| && w.norm(claims[k].recordId) == w.norm(a.recordId);
      assert index[w.norm(a.recordId)] == claims[k];
      JoinsIff(s, a, claims[k]);
    }
    if JoinsSome(s, a, claims) {
      var k :| 0 <= k < |claims| && Backs(s, a, claims[k]);
      assert w.norm(claims[k].recordId) in index;
    }
  }

  lemma OkByIndex(w: World, s: Subject, claims: seq<Claim>, index: map<string, Claim>, a: Assertion)
    requires ClaimIndex(w, claims, index, |claims|)
    ensures AssertionOk(w, s, claims, a) <==>
      && Shaped(w, a) && a.subjectHash == s.hash && a.role in s.roles
      && w.norm(a.recordId) in index && Joins(s, a, index[w.norm(a.recordId)])
  {
    JoinByIndex(w, s, claims, index, a);
    ShapedIff(w, a);
    hide ClaimIndex, Joins, JoinsSome, Shaped, Formed;
  }

  ghost function ApprovalIds(w: World, assertions: seq<Assertion>): set<string> {
    set k: nat | k < |assertions| :: w.norm(assertions[k].approvalId)
  }

  lemma IdsStep(w: World, assertions: seq<Assertion>, k: nat)
    requires k < |assertions| && ApprovalsOnce(w, assertions[..k])
    ensures ApprovalsOnce(w, assertions[..k + 1]) <==> w.norm(assertions[k].approvalId) !in ApprovalIds(w, assertions[..k])
    ensures ApprovalIds(w, assertions[..k + 1]) == ApprovalIds(w, assertions[..k]) + {w.norm(assertions[k].approvalId)}
  {
    var a, seen, more := assertions[k], assertions[..k], assertions[..k + 1];
    if w.norm(a.approvalId) in ApprovalIds(w, seen) {
      var i: nat :| i < k && w.norm(seen[i].approvalId) == w.norm(a.approvalId);
      assert more[i].approvalId == seen[i].approvalId && more[k] == a;
    }
    forall x ensures x in ApprovalIds(w, more) <==> x in ApprovalIds(w, seen) + {w.norm(a.approvalId)} {
      if x in ApprovalIds(w, seen) {
        var i: nat :| i < k && w.norm(seen[i].approvalId) == x;
        assert w.norm(more[i].approvalId) == x;
      }
      assert w.norm(more[k].approvalId) == w.norm(a.approvalId);
    }
  }

  /** One more assertion keeps roles and approvals single just when both are new. */
  lemma OnceStep(w: World, assertions: seq<Assertion>, k: nat)
    requires k < |assertions| && RolesOnce(assertions[..k]) && ApprovalsOnce(w, assertions[..k])
    ensures var a, seen := assertions[k], assertions[..k];
      && (RolesOnce(assertions[..k + 1]) <==> a.role !in RoleSet(seen))
      && (ApprovalsOnce(w, assertions[..k + 1]) <==> w.norm(a.approvalId) !in ApprovalIds(w, seen))
      && RoleSet(assertions[..k + 1]) == RoleSet(seen) + {a.role}
      && ApprovalIds(w, assertions[..k + 1]) == ApprovalIds(w, seen) + {w.norm(a.approvalId)}
  {
    RolesStep(assertions, k);
    IdsStep(w, assertions, k);
    hide RolesOnce, RoleSet, ApprovalsOnce, ApprovalIds;
  }

  lemma RolesStep(assertions: seq<Assertion>, k: nat)
    requires k < |assertions| && RolesOnce(assertions[..k])
    ensures RolesOnce(assertions[..k + 1]) <==> assertions[k].role !in RoleSet(assertions[..k])
    ensures RoleSet(assertions[..k + 1]) == RoleSet(assertions[..k]) + {assertions[k].role}
  {
    var a, seen, more := assertions[k], assertions[..k], assertions[..k + 1];
    if a.role in RoleSet(seen) {
      var i: nat :| i < k && seen[i].role == a.role;
      assert more[i].role == more[k].role;
    }
    forall x ensures x in RoleSet(more) <==> x in RoleSet(seen) + {a.role} {
      if x in RoleSet(seen) {
        var i: nat :| i < k && seen[i].role == x;
        assert more[i].role == x;
      }
      assert more[k].role == a.role;
    }
  }

  lemma OnceShrinks(w: World, assertions: seq<Assertion>, k: nat)
    requires k <= |assertions|
    ensures RolesOnce(assertions) ==> RolesOnce(assertions[..k])
    ensures ApprovalsOnce(w, assertions) ==> ApprovalsOnce(w, assertions[..k])
  {}

  function HashKey(): string -> seq<string> {
    (text: string) => [text]
  }

  function Hashes(digest: Assertion -> string, assertions: seq<Assertion>): seq<string> {
    Sort(Mapped(digest, assertions), ByKey(HashKey()))
  }

  /** `validate_approval_assertions`: on acceptance, the sorted assertion hashes. */
  method ValidateApprovalAssertions(w: World, s: Subject, claims: seq<Claim>, assertions: seq<Assertion>, digest: Assertion -> string)
    returns (r: Option<seq<string>>)
    ensures r.Some? <==> Approved(w, s, claims, assertions, digest)
    ensures r.Some? ==> r.value == Hashes(digest, assertions)
  {
    hide Shaped, Joins, ClaimIndex, AssertionOk, RoleSet, ApprovalIds, ClaimsDistinct, ByKey, Sort;
    if assertions == [] {
      return None;
    }
    var index := IndexClaims(w, claims);
    if index.None? {
      return None;
    }
    var seenApprovals: set<string> := {};
    var seenRoles: set<string> := {};
    var hashes: seq<string> := [];
    var k := 0;
    NoneSeen(w);
    while k < |assertions|
      invariant 0 <= k <= |assertions| && |hashes| == k
      invariant forall i :: 0 <= i < k ==> AssertionOk(w, s, claims, assertions[i]) && hashes[i] == digest(assertions[i])
      invariant RolesOnce(assertions[..k]) && ApprovalsOnce(w, assertions[..k])
      invariant seenRoles == RoleSet(assertions[..k]) && seenApprovals == ApprovalIds(w, assertions[..k])
    {
      var a := assertions[k];
      OkByIndex(w, s, claims, index.value, a);
      OnceStep(w, assertions, k);
      OnceShrinks(w, assertions, k + 1);
      hide RolesOnce, ApprovalsOnce;
      if !Shaped(w, a) || a.subjectHash != s.hash || a.role !in s.roles {
        return None;
      }
      if w.norm(a.approvalId) in seenApprovals || a.role in seenRoles {
        return None;
      }
      if w.norm(a.recordId) !in index.value || !Joins(s, a, index.value[w.norm(a.recordId)]) {
        return None;
      }
      seenApprovals, seenRoles := seenApprovals + {w.norm(a.approvalId)}, seenRoles + {a.role};
      hashes := hashes + [digest(a)];
      k := k + 1;
    }
    assert assertions[..k] == assertions;
    if seenRoles != s.roles {
      return None;
    }
    var distinct := forall i, j :: 0 <= i < j < |hashes| ==> hashes[i] != hashes[j];
    if !distinct {
      var i, j :| 0 <= i < j < |hashes| && hashes[i] == hashes[j];
      assert digest(assertions[i]) == digest(assertions[j]);
      return None;
    }
    forall i, j | 0 <= i < j < |assertions| ensures digest(assertions[i]) != digest(assertions[j]) {
      assert hashes[i] != hashes[j];
    }
    assert hashes == Mapped(digest, assertions);
    return Some(Sort(hashes, ByKey(HashKey())));
  }

  lemma RolesOccur(a: seq<Assertion>, b: seq<Assertion>)
    requires multiset(a) == multiset(b)
    ensures RoleSet(a) <= RoleSet(b)
  {
    forall x | x in RoleSet(a) ensures x in RoleSet(b) {
      var k: nat :| k < |a| && a[k].role == x;
      assert a[k] in multiset(b);
      var j: nat :| j < |b| && b[j] == a[k];
    }
  }

  lemma HashesForgetOrder(digest: Assertion -> string, a: seq<Assertion>, b: seq<Assertion>)
    requires multiset(a) == multiset(b)
    ensures Hashes(digest, a) == Hashes(digest, b)
  {
    MappedSame(digest, a, b);
    hide KeyLe;
    forall x, y | ByKey(HashKey())(x, y) && ByKey(HashKey())(y, x) ensures x == y {
      KeyTotal(HashKey()(x), HashKey()(y));
      assert HashKey()(x)[0] == HashKey()(y)[0];
    }
    SortForgetsOrder(Mapped(digest, a), Mapped(digest, b), ByKey(HashKey()));
  }

  /** Neither acceptance nor the recorded hashes depend on the order the assertions are listed in. */
  lemma ApprovalForgetsOrder(w: World, s: Subject, claims: seq<Claim>, a: seq<Assertion>, b: seq<Assertion>, digest: Assertion -> string)
    requires multiset(a) == multiset(b) && Approved(w, s, claims, a, digest)
    ensures Approved(w, s, claims, b, digest) && Hashes(digest, a) == Hashes(digest, b)
  {
    hide AssertionOk, ClaimsDistinct, RoleSet, Hashes;
    HashesForgetOrder(digest, a, b);
    RolesOccur(a, b);
    RolesOccur(b, a);
    NamesKept(a, b, (x: Assertion) => x.role);
    NamesKept(a, b, (x: Assertion) => w.norm(x.approvalId));
    NamesKept(a, b, digest);
    forall k | 0 <= k < |b| ensures AssertionOk(w, s, claims, b[k]) {
      assert b[k] in multiset(a);
      var i :| 0 <= i < |a| && a[i] == b[k];
    }
    assert |a| == |multiset(a)| == |multiset(b)| == |b|;
  }

  lemma NoneSeen(w: World)
    ensures RoleSet([]) == {} && ApprovalIds(w, []) == {}
  {}

  // ---------- `require_authenticated_assertion_records` ----------

  /** The assertion repeats the authenticated record and is not older than its signature. */
  predicate Matches(w: World, a: Assertion, r: Record, issued: map<string, string>) {
    && a.recordId == r.recordId && a.recordHash == r.contentHash && a.approver == r.approver && a.role == r.role
    && a.effectiveFrom == r.effectiveFrom && a.expiresAt == r.expiresAt
    && r.recordId in issued && w.at(issued[r.recordId]) <= w.at(a.issuedAt)
  }

  ghost predicate MatchedBy(w: World, assertions: seq<Assertion>, r: Record, issued: map<string, string>) {
    exists k :: 0 <= k < |assertions| && Matches(w, assertions[k], r, issued)
  }

  ghost predicate OnePerRecord(assertions: seq<Assertion>) {
    forall i, j :: 0 <= i < j < |assertions| ==> assertions[i].recordId != assertions[j].recordId
  }

  /** What the second gate accepts once the authenticity state is PASS. */
  ghost predicate Authenticated(w: World, assertions: seq<Assertion>, records: seq<Record>, issued: map<string, string>) {
    && (forall k :: 0 <= k < |assertions| ==> Formed(w, assertions[k]))
    && |assertions| == |records|
    && OnePerRecord(assertions)
    && (forall k :: 0 <= k < |records| ==> MatchedBy(w, assertions, records[k], issued))
  }

  ghost predicate AssertionIndex(assertions: seq<Assertion>, index: map<string, Assertion>, n: nat)
    requires n <= |assertions|
  {
    && (forall i :: 0 <= i < n ==> assertions[i].recordId in index && index[assertions[i].recordId] == assertions[i])
    && (forall id :: id in index ==> exists i :: 0 <= i < n && assertions[i].recordId == id)
  }

  method IndexAssertions(w: World, assertions: seq<Assertion>) returns (r: Option<map<string, Assertion>>)
    ensures r.Some? <==> (forall k :: 0 <= k < |assertions| ==> Formed(w, assertions[k])) && OnePerRecord(assertions)
    ensures r.Some? ==> AssertionIndex(assertions, r.value, |assertions|)
  {
    hide Shaped, Formed;
    var index: map<string, Assertion> := map[];
    var k := 0;
    while k < |assertions|
      invariant 0 <= k <= |assertions| && AssertionIndex(assertions, index, k)
      invariant forall i :: 0 <= i < k ==> Formed(w, assertions[i])
      invariant forall i, j :: 0 <= i < j < k ==> assertions[i].recordId != assertions[j].recordId
    {
      ShapedIff(w, assertions[k]);
      if !Shaped(w, assertions[k]) || assertions[k].recordId in index {
        return None;
      }
      index := index[assertions[k].recordId := assertions[k]];
      k := k + 1;
    }
    return Some(index);
  }

  lemma MatchByIndex(w: World, assertions: seq<Assertion>, index: map<string, Assertion>, r: Record, issued: map<string, string>)
    requires AssertionIndex(assertions, index, |assertions|)
    ensures MatchedBy(w, assertions, r, issued) <==> r.recordId in index && Matches(w, index[r.recordId], r, issued)
  {
    if r.recordId in index {
      var i :| 0 <= i < |assertions| && assertions[i].recordId == r.recordId;
      assert index[r.recordId] == assertions[i];
    }
    if MatchedBy(w, assertions, r, issued) {
      var k :| 0 <= k < |assertions| && Matches(w, assertions[k], r, issued);
      assert index[r.recordId] == assertions[k];
    }
  }

  method RequireAuthenticatedAssertionRecords(w: World, state: State, assertions: seq<Assertion>, records: seq<Record>, issued: map<string, string>)
    returns (ok: bool)
    requires forall k :: 0 <= k < |records| ==> records[k].recordId in issued
    ensures ok <==> state.PASS? && Authenticated(w, assertions, records, issued)
  {
    hide Shaped, Formed, Matches, MatchedBy, AssertionIndex;
    if !state.PASS? {
      return false;
    }
    var index := IndexAssertions(w, assertions);
    if index.None? || |assertions| != |records| {
      return false;
    }
    var k := 0;
    while k < |records|
      invariant 0 <= k <= |records| && forall i :: 0 <= i < k ==> MatchedBy(w, assertions, records[i], issued)
    {
      MatchByIndex(w, assertions, index.value, records[k], issued);
      if records[k].recordId !in index.value || !Matches(w, index.value[records[k].recordId], records[k], issued) {
        return false;
      }
      k := k + 1;
    }
    return true;
  }

  // ---------- Both gates ----------

  /** The record an assertion is about. */
  ghost predicate About(a: Assertion, r: Record) {
    a.recordId == r.recordId
  }

  /** Key start, record start, record issue, assertion issue, record end, key end: in that order. */
  ghost predicate Chained(w: World, a: Assertion, r: Record) {
    && (r.issuerId, r.keyId) in w.keys
    && var key := w.keys[(r.issuerId, r.keyId)];
      w.at(key.effectiveFrom) <= w.at(r.effectiveFrom) <= w.at(r.issuedAt) <= w.at(a.issuedAt) <= w.at(r.expiresAt) <= w.at(key.expiresAt)
  }

  ghost predicate Paired(assertions: seq<Assertion>, r: Record) {
    exists k :: 0 <= k < |assertions| && About(assertions[k], r)
  }

  ghost predicate HasRecord(a: Assertion, records: seq<Record>) {
    exists k :: 0 <= k < |records| && About(a, records[k])
  }

  function IdsOf(assertions: seq<Assertion>): (r: seq<string>)
    ensures |r| == |assertions| && forall k :: 0 <= k < |r| ==> r[k] == assertions[k].recordId
  {
    seq(|assertions|, k requires 0 <= k < |assertions| => assertions[k].recordId)
  }

  function RecordIds(records: seq<Record>): (r: seq<string>)
    ensures |r| == |records| && forall k :: 0 <= k < |r| ==> r[k] == records[k].recordId
  {
    seq(|records|, k requires 0 <= k < |records| => records[k].recordId)
  }

  /** One assertion for each record and one record for each assertion, the required roles once each, and every
      pair's times chained inside the signing key's validity. */
  ghost predicate InBijection(w: World, s: Subject, assertions: seq<Assertion>, records: seq<Record>) {
    && |assertions| == |records| && RolesOnce(assertions) && RoleSet(assertions) == s.roles
    && (forall k :: 0 <= k < |records| ==> Paired(assertions, records[k]))
    && (forall k :: 0 <= k < |assertions| ==> HasRecord(assertions[k], records))
    && (forall i, j :: 0 <= i < |assertions| && 0 <= j < |records| && About(assertions[i], records[j]) ==> Chained(w, assertions[i], records[j]))
    && (forall i, j, k :: 0 <= i < |assertions| && 0 <= j < k < |records| && About(assertions[i], records[j]) ==> !About(assertions[i], records[k]))
  }

  lemma Counterparts(w: World, assertions: seq<Assertion>, records: seq<Record>, issued: map<string, string>)
    requires |assertions| == |records| && forall k :: 0 <= k < |records| ==> MatchedBy(w, assertions, records[k], issued)
    requires forall i, j :: 0 <= i < j < |records| ==> records[i].recordId != records[j].recordId
    ensures forall k :: 0 <= k < |records| ==> Paired(assertions, records[k])
    ensures forall k :: 0 <= k < |assertions| ==> HasRecord(assertions[k], records)
  {
    hide Matches, MatchedBy;
    var ids, used := IdsOf(assertions), RecordIds(records);
    forall k | 0 <= k < |records| ensures Paired(assertions, records[k]) && used[k] in ids {
      var i := MatchOf(w, assertions, records[k], issued);
      assert About(assertions[i], records[k]);
      assert ids[i] == used[k];
    }
    NoneLeft(ids, used);
    forall k | 0 <= k < |assertions| ensures HasRecord(assertions[k], records) {
      assert ids[k] in used;
      var i :| 0 <= i < |used| && used[i] == ids[k];
      assert About(assertions[k], records[i]);
    }
  }

  lemma ChainedAbout(w: World, assertions: seq<Assertion>, i: nat, r: Record, issued: map<string, string>)
    requires i < |assertions| && About(assertions[i], r) && OnePerRecord(assertions) && Formed(w, assertions[i])
    requires MatchedBy(w, assertions, r, issued) && Authentic(w, r) && r.memberId in issued && issued[r.memberId] == r.issuedAt
    ensures Chained(w, assertions[i], r)
  {
    hide Matches, MatchedBy, Chained, Authentic, Formed;
    var m := MatchOf(w, assertions, r, issued);
    SameAssertion(assertions, m, i);
    ChainedPair(w, assertions[i], r, issued);
  }

  /** When both gates accept, assertions and authenticated records are in bijection. */
  lemma GatesAgree(w: World, s: Subject, claims: seq<Claim>, assertions: seq<Assertion>, digest: Assertion -> string,
                   records: seq<Record>, issued: map<string, string>)
    requires Approved(w, s, claims, assertions, digest) && Authenticated(w, assertions, records, issued)
    requires forall k :: 0 <= k < |records| ==> Authentic(w, records[k]) && records[k].memberId in issued && issued[records[k].memberId] == records[k].issuedAt
    requires forall i, j :: 0 <= i < j < |records| ==> records[i].recordId != records[j].recordId
    ensures InBijection(w, s, assertions, records)
  {
    hide Approved, RoleSet, RolesOnce, Formed, MatchedBy, Chained, Authentic, Paired, HasRecord, OnePerRecord;
    PartsOfApproved(w, s, claims, assertions, digest);
    Counterparts(w, assertions, records, issued);
    forall i, j | 0 <= i < |assertions| && 0 <= j < |records| && About(assertions[i], records[j]) ensures Chained(w, assertions[i], records[j]) {
      ChainedAbout(w, assertions, i, records[j], issued);
    }
  }

  lemma MatchOf(w: World, assertions: seq<Assertion>, r: Record, issued: map<string, string>) returns (m: nat)
    requires MatchedBy(w, assertions, r, issued)
    ensures m < |assertions| && Matches(w, assertions[m], r, issued) && assertions[m].recordId == r.recordId
  {
    m :| 0 <= m < |assertions| && Matches(w, assertions[m], r, issued);
  }

  lemma PartsOfApproved(w: World, s: Subject, claims: seq<Claim>, assertions: seq<Assertion>, digest: Assertion -> string)
    requires Approved(w, s, claims, assertions, digest)
    ensures RolesOnce(assertions) && RoleSet(assertions) == s.roles
  {}

  lemma SameAssertion(assertions: seq<Assertion>, m: nat, i: nat)
    requires m < |assertions| && i < |assertions| && assertions[m].recordId == assertions[i].recordId
    requires forall i, j :: 0 <= i < j < |assertions| ==> assertions[i].recordId != assertions[j].recordId
    ensures m == i
  {}

  lemma ChainedPair(w: World, a: Assertion, r: Record, issued: map<string, string>)
    requires Matches(w, a, r, issued) && Formed(w, a) && Authentic(w, r)
    requires r.memberId in issued && issued[r.memberId] == r.issuedAt
    ensures Chained(w, a, r)
  {}

  // ---------- The whole admission ----------

  function ClaimOf(r: Record): Claim {
    Claim(r.recordId, r.contentHash, r.approver, r.role, r.purpose, r.scope, r.effectiveFrom, r.expiresAt)
  }

  function ClaimsOf(records: seq<Record>): (r: seq<Claim>)
    ensures |r| == |records| && forall k :: 0 <= k < |r| ==> r[k] == ClaimOf(records[k])
  {
    Mapped(ClaimOf, records)
  }

  /** The assertion repeats the signed record and is not older than it. */
  ghost predicate Repeats(w: World, a: Assertion, r: Record) {
    && a.recordId == r.recordId && a.recordHash == r.contentHash && a.approver == r.approver && a.role == r.role
    && a.effectiveFrom == r.effectiveFrom && a.expiresAt == r.expiresAt && w.at(r.issuedAt) <= w.at(a.issuedAt)
  }

  ghost predicate RepeatedBy(w: World, assertions: seq<Assertion>, r: Record) {
    exists k :: 0 <= k < |assertions| && Repeats(w, assertions[k], r)
  }

  /** What the second gate asks, read off the records themselves. */
  ghost predicate Fulfils(w: World, assertions: seq<Assertion>, records: seq<Record>) {
    && (forall k :: 0 <= k < |assertions| ==> Formed(w, assertions[k]))
    && |assertions| == |records|
    && OnePerRecord(assertions)
    && (forall k :: 0 <= k < |records| ==> RepeatedBy(w, assertions, records[k]))
  }

  lemma StampedAlike(w: World, assertions: seq<Assertion>, records: seq<Record>, issued: map<string, string>)
    requires forall k :: 0 <= k < |records| ==> records[k].recordId in issued && issued[records[k].recordId] == records[k].issuedAt
    ensures Authenticated(w, assertions, records, issued) <==> Fulfils(w, assertions, records)
  {
    hide Formed;
    forall k | 0 <= k < |records| ensures MatchedBy(w, assertions, records[k], issued) <==> RepeatedBy(w, assertions, records[k]) {
      assert forall i :: 0 <= i < |assertions| ==> (Matches(w, assertions[i], records[k], issued) <==> Repeats(w, assertions[i], records[k]));
    }
  }

  // ---------- Admission, from the records alone ----------

  /** A record signs the assertion for this subject: same record, content, approver, role and validity, and the
      subject's purpose and scope. */
  ghost predicate SignsFor(s: Subject, a: Assertion, r: Record) {
    && r.recordId == a.recordId && r.contentHash == a.recordHash && r.approver == a.approver && r.role == a.role
    && r.effectiveFrom == a.effectiveFrom && r.expiresAt == a.expiresAt
    && r.purpose == s.purpose && r.scope == s.scope
  }

  ghost predicate Signed(s: Subject, a: Assertion, records: seq<Record>) {
    exists k :: 0 <= k < |records| && SignsFor(s, a, records[k])
  }

  ghost predicate RecordsApart(w: World, records: seq<Record>) {
    forall i, j :: 0 <= i < j < |records| ==> w.norm(records[i].recordId) != w.norm(records[j].recordId)
  }

  /** The approval set, read off the assertions and the records: every assertion well formed, for this subject and a
      required role, signed by a record; every required role once; no approval or hash twice. */
  ghost predicate ApprovedByRecords(w: World, s: Subject, records: seq<Record>, assertions: seq<Assertion>, digest: Assertion -> string) {
    && assertions != [] && RecordsApart(w, records)
    && (forall k :: 0 <= k < |assertions| ==>
          && Formed(w, assertions[k]) && assertions[k].subjectHash == s.hash && assertions[k].role in s.roles
          && Signed(s, assertions[k], records))
    && RolesOnce(assertions) && ApprovalsOnce(w, assertions) && RoleSet(assertions) == s.roles
    && (forall i, j :: 0 <= i < j < |assertions| ==> digest(assertions[i]) != digest(assertions[j]))
  }

  lemma SignedIff(s: Subject, a: Assertion, records: seq<Record>)
    ensures JoinsSome(s, a, ClaimsOf(records)) <==> Signed(s, a, records)
  {
    forall k | 0 <= k < |records| ensures Backs(s, a, ClaimsOf(records)[k]) <==> SignsFor(s, a, records[k]) {
      assert ClaimsOf(records)[k] == ClaimOf(records[k]);
    }
    hide ClaimsOf, Backs, SignsFor;
    if JoinsSome(s, a, ClaimsOf(records)) {
      var k :| 0 <= k < |ClaimsOf(records)| && Backs(s, a, ClaimsOf(records)[k]);
    }
    if Signed(s, a, records) {
      var k :| 0 <= k < |records| && SignsFor(s, a, records[k]);
      assert Backs(s, a, ClaimsOf(records)[k]);
    }
  }

  lemma ApartIff(w: World, records: seq<Record>)
    ensures ClaimsDistinct(w, ClaimsOf(records)) <==> RecordsApart(w, records)
  {
    forall k | 0 <= k < |records| ensures ClaimsOf(records)[k].recordId == records[k].recordId {}
    hide ClaimsOf;
  }

  /** The first gate, given the records' claims, asks exactly for an approval set the records sign. */
  lemma ApprovedIff(w: World, s: Subject, records: seq<Record>, assertions: seq<Assertion>, digest: Assertion -> string)
    ensures Approved(w, s, ClaimsOf(records), assertions, digest) <==> ApprovedByRecords(w, s, records, assertions, digest)
  {
    ApartIff(w, records);
    forall k | 0 <= k < |assertions| ensures JoinsSome(s, assertions[k], ClaimsOf(records)) <==> Signed(s, assertions[k], records) {
      SignedIff(s, assertions[k], records);
    }
    hide ClaimsOf, ClaimsDistinct, RecordsApart, JoinsSome, Signed, Formed, RolesOnce, ApprovalsOnce, RoleSet;
  }

  lemma ClaimsApart(w: World, records: seq<Record>)
    requires ClaimsDistinct(w, ClaimsOf(records))
    ensures forall i, j :: 0 <= i < j < |records| ==> records[i].recordId != records[j].recordId
  {
    forall i, j | 0 <= i < j < |records| ensures records[i].recordId != records[j].recordId {
      assert ClaimsOf(records)[i].recordId == records[i].recordId && ClaimsOf(records)[j].recordId == records[j].recordId;
    }
  }

  lemma ApprovedClaims(w: World, s: Subject, claims: seq<Claim>, assertions: seq<Assertion>, digest: Assertion -> string)
    requires Approved(w, s, claims, assertions, digest)
    ensures ClaimsDistinct(w, claims)
  {}

  /** The gates in the order every caller runs them: records judged, assertions joined to the records' claims, and
      matched against the authenticated records. Acceptance is exact, and means the bijection. */
  method Admit(w: World, s: Subject, records: seq<Record>, assertions: seq<Assertion>, digest: Assertion -> string)
    returns (r: Option<seq<string>>)
    requires forall i, j :: 0 <= i < j < |records| ==> records[i].memberId != records[j].memberId
    ensures r.Some? <==>
      && RolesAsRequired(w, records) && AllAuthentic(w, records)
      && ApprovedByRecords(w, s, records, assertions, digest) && Fulfils(w, assertions, records)
    ensures r.Some? ==> r.value == Hashes(digest, assertions) && InBijection(w, s, assertions, records)
  {
    ApprovedIff(w, s, records, assertions, digest);
    StateIff(w, records);
    hide Verdicts, RolesAsRequired, AllAuthentic, AnyRefuted, ApprovedByRecords, ReasonOf, Approved, Fulfils, Authenticated, InBijection, Hashes, ClaimsOf, Judge;
    var state, reason, issued := JudgeRecords(w, records);
    r := ValidateApprovalAssertions(w, s, ClaimsOf(records), assertions, digest);
    if r.None? || !state.PASS? {
      return None;
    }
    StampedAlike(w, assertions, records, issued);
    var ok := RequireAuthenticatedAssertionRecords(w, state, assertions, records, issued);
    if !ok {
      return None;
    }
    ApprovedClaims(w, s, ClaimsOf(records), assertions, digest);
    ClaimsApart(w, records);
    GatesAgree(w, s, ClaimsOf(records), assertions, digest, records, issued);
  }
}

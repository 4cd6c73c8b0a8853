/** The authorization authenticity verdict: what the record loop decides, and what in it depends on order. */
module Authenticity {
  import opened Json
  import opened Ordering

  datatype State = PASS | CONTRADICTED | UNVERIFIABLE

  datatype Revocation = Active | Revoked | UnknownStatus

  /** Times keep their text; `World.at` reads them. */
  datatype IssuerKey = IssuerKey(status: Revocation, roles: set<string>, purposes: set<string>, scopes: set<string>,
                                 effectiveFrom: string, expiresAt: string, publicKey: string)

  /** One signed record under the identifier its bundle member carries. */
  datatype Record = Record(memberId: string, recordId: string, trustDomain: string, issuerId: string, keyId: string, role: string,
                           purpose: string, scope: string, effectiveFrom: string, issuedAt: string, expiresAt: string,
                           contentHash: string, approver: string)

  /** Normalization, RFC 3339 reading and signature verification, left uninterpreted; `roles` is the fixed policy's
      required list, `trustDomain` and `keys` come from the accepted snapshot. */
  datatype World = World(norm: string -> string, at: string -> int, verifies: (string, Record) -> bool,
                         roles: seq<string>, trustDomain: string, keys: map<(string, string), IssuerKey>)

  datatype Reason =
    | RoleSetMismatch | TrustJoinMismatch | KeyRevoked | CapabilityMismatch | WindowMismatch | SignatureInvalid
    | KeyNotFound | KeyStatusUnknown | Passed

  datatype Verdict = Good | Pending(reason: Reason) | Contradicts(reason: Reason)

  // ---------- One record ----------

  /** The signing key's validity contains the record's, and the record was issued inside its own. */
  predicate Nested(w: World, key: IssuerKey, r: Record) {
    w.at(key.effectiveFrom) <= w.at(r.effectiveFrom) <= w.at(r.issuedAt) <= w.at(r.expiresAt) <= w.at(key.expiresAt)
  }

  function Judge(w: World, r: Record): Verdict {
    if r.recordId != r.memberId || r.trustDomain != w.trustDomain then Contradicts(TrustJoinMismatch)
    else if (r.issuerId, r.keyId) !in w.keys then Pending(KeyNotFound)
    else
      var key := w.keys[(r.issuerId, r.keyId)];
      if key.status.Revoked? then Contradicts(KeyRevoked)
      else if key.status.UnknownStatus? then Pending(KeyStatusUnknown)
      else if r.role !in key.roles || r.purpose !in key.purposes || r.scope !in key.scopes then Contradicts(CapabilityMismatch)
      else if !Nested(w, key, r) then Contradicts(WindowMismatch)
      else if !w.verifies(key.publicKey, r) then Contradicts(SignatureInvalid)
      else Good
  }

  /** An active, capable key, nested windows and a valid signature. */
  predicate Authentic(w: World, r: Record) {
    && r.recordId == r.memberId && r.trustDomain == w.trustDomain && (r.issuerId, r.keyId) in w.keys
    && var key := w.keys[(r.issuerId, r.keyId)];
      && key.status.Active? && r.role in key.roles && r.purpose in key.purposes && r.scope in key.scopes
      && Nested(w, key, r) && w.verifies(key.publicKey, r)
  }

  lemma GoodIsAuthentic(w: World, r: Record)
    ensures Judge(w, r).Good? <==> Authentic(w, r)
  {}

  /** The record is its bundle member's and names the trusted domain. */
  ghost predicate Joined(w: World, r: Record) {
    r.recordId == r.memberId && r.trustDomain == w.trustDomain
  }

  ghost predicate KeyStands(w: World, r: Record, status: Revocation) {
    (r.issuerId, r.keyId) in w.keys && w.keys[(r.issuerId, r.keyId)].status == status
  }

  ghost predicate Capable(key: IssuerKey, r: Record) {
    r.role in key.roles && r.purpose in key.purposes && r.scope in key.scopes
  }

  ghost predicate InWindow(w: World, key: IssuerKey, r: Record) {
    && w.at(key.effectiveFrom) <= w.at(r.effectiveFrom) && w.at(r.effectiveFrom) <= w.at(r.issuedAt)
    && w.at(r.issuedAt) <= w.at(r.expiresAt) && w.at(r.expiresAt) <= w.at(key.expiresAt)
  }

  /** Why a record is refuted; at most one reason holds. */
  ghost predicate Refuted(w: World, r: Record, reason: Reason) {
    match reason
    case TrustJoinMismatch => !Joined(w, r)
    case KeyRevoked => Joined(w, r) && KeyStands(w, r, Revoked)
    case CapabilityMismatch => Joined(w, r) && KeyStands(w, r, Active) && !Capable(w.keys[(r.issuerId, r.keyId)], r)
    case WindowMismatch =>
      && Joined(w, r) && KeyStands(w, r, Active)
      && var key := w.keys[(r.issuerId, r.keyId)]; Capable(key, r) && !InWindow(w, key, r)
    case SignatureInvalid =>
      && Joined(w, r) && KeyStands(w, r, Active)
      && var key := w.keys[(r.issuerId, r.keyId)]; Capable(key, r) && InWindow(w, key, r) && !w.verifies(key.publicKey, r)
    case _ => false
  }

  /** Why a record stays open. */
  ghost predicate Open(w: World, r: Record, reason: Reason) {
    match reason
    case KeyNotFound => Joined(w, r) && (r.issuerId, r.keyId) !in w.keys
    case KeyStatusUnknown => Joined(w, r) && KeyStands(w, r, UnknownStatus)
    case _ => false
  }

  /** A record is judged by the one reason that holds of it. */
  lemma JudgedExactly(w: World, r: Record, reason: Reason)
    ensures Judge(w, r) == Contradicts(reason) <==> Refuted(w, r, reason)
    ensures Judge(w, r) == Pending(reason) <==> Open(w, r, reason)
  {}

  // ---------- The whole set ----------

  function RoleKey(norm: string -> string): string -> seq<string> {
    (role: string) => [norm(role), role]
  }

  function RolesOf(records: seq<Record>): (r: seq<string>)
    ensures |r| == |records| && forall k :: 0 <= k < |r| ==> r[k] == records[k].role
  {
    Mapped((r: Record) => r.role, records)
  }

  /** The roles claimed are the required ones, each as often as required. */
  predicate RolesMatch(w: World, records: seq<Record>) {
    Sort(RolesOf(records), ByKey(RoleKey(w.norm))) == w.roles
  }

  ghost predicate SomeContradicts(w: World, records: seq<Record>) {
    exists k :: 0 <= k < |records| && Judge(w, records[k]).Contradicts?
  }

  ghost predicate SomePending(w: World, records: seq<Record>) {
    exists k :: 0 <= k < |records| && Judge(w, records[k]).Pending?
  }

  /** The state, read off the set of verdicts. */
  ghost function Verdicts(w: World, records: seq<Record>): State {
    if !RolesMatch(w, records) || SomeContradicts(w, records) then CONTRADICTED
    else if SomePending(w, records) then UNVERIFIABLE
    else PASS
  }

  function FirstContradiction(w: World, records: seq<Record>): Option<Reason> {
    if records == [] then None
    else if Judge(w, records[0]).Contradicts? then Some(Judge(w, records[0]).reason)
    else FirstContradiction(w, records[1..])
  }

  function LastPending(w: World, records: seq<Record>): Option<Reason> {
    if records == [] then None
    else if Judge(w, records[|records| - 1]).Pending? then Some(Judge(w, records[|records| - 1]).reason)
    else LastPending(w, records[..|records| - 1])
  }

  /** The reason code: the first contradicting record's, else the last pending record's. */
  function ReasonOf(w: World, records: seq<Record>): Reason {
    if !RolesMatch(w, records) then RoleSetMismatch
    else if FirstContradiction(w, records).Some? then FirstContradiction(w, records).value
    else if LastPending(w, records).Some? then LastPending(w, records).value
    else Passed
  }

  // ---------- The state, from the records alone ----------

  /** The roles claimed are the required ones, each as often, and the policy lists them in order. */
  ghost predicate RolesAsRequired(w: World, records: seq<Record>) {
    && Sorted(w.roles, ByKey(RoleKey(w.norm)))
    && multiset(RolesOf(records)) == multiset(w.roles)
  }

  ghost predicate AnyRefuted(w: World, records: seq<Record>) {
    exists k, reason :: 0 <= k < |records| && Refuted(w, records[k], reason)
  }

  ghost predicate AllAuthentic(w: World, records: seq<Record>) {
    forall k :: 0 <= k < |records| ==> Authentic(w, records[k])
  }

  lemma RolesMatchIff(w: World, records: seq<Record>)
    ensures RolesMatch(w, records) <==> RolesAsRequired(w, records)
  {
    var key := RoleKey(w.norm);
    var roles := RolesOf(records);
    SortSorts(roles, ByKey(key));
    if RolesAsRequired(w, records) {
      hide KeyLe;
      forall x, y | ByKey(key)(x, y) && ByKey(key)(y, x) ensures x == y {
        KeyTotal(key(x), key(y));
        assert key(x)[1] == key(y)[1];
      }
      SortForgetsOrder(roles, w.roles, ByKey(key));
      SortFixesSorted(w.roles, ByKey(key));
    }
  }

  /** Contradicted exactly when the roles are not the required ones or some record is refuted; passed exactly when
      the roles are right and every record is authentic. */
  ghost predicate StateSaid(w: World, records: seq<Record>, state: State) {
    && (state.CONTRADICTED? <==> !RolesAsRequired(w, records) || AnyRefuted(w, records))
    && (state.PASS? <==> RolesAsRequired(w, records) && AllAuthentic(w, records))
  }

  /** The verdicts give the state the records call for. */
  lemma StateIff(w: World, records: seq<Record>)
    ensures StateSaid(w, records, Verdicts(w, records))
  {
    RolesMatchIff(w, records);
    hide RolesMatch, RolesAsRequired, Judge, Authentic, Refuted, Open;
    forall k | 0 <= k < |records|
      ensures Judge(w, records[k]).Good? <==> Authentic(w, records[k])
      ensures Judge(w, records[k]).Contradicts? <==> exists reason :: Refuted(w, records[k], reason)
    {
      GoodIsAuthentic(w, records[k]);
      forall reason ensures Judge(w, records[k]) == Contradicts(reason) <==> Refuted(w, records[k], reason) {
        JudgedExactly(w, records[k], reason);
      }
      if Judge(w, records[k]).Contradicts? {
        assert Refuted(w, records[k], Judge(w, records[k]).reason);
      }
    }
  }

  lemma {:induction false} FirstContradictionIs(w: World, records: seq<Record>)
    ensures FirstContradiction(w, records).Some? <==> SomeContradicts(w, records)
    ensures FirstContradiction(w, records).Some? ==>
      exists k :: 0 <= k < |records| && Judge(w, records[k]) == Contradicts(FirstContradiction(w, records).value)
  {
    hide Judge;
    if records != [] {
      FirstContradictionIs(w, records[1..]);
      if SomeContradicts(w, records[1..]) {
        var k :| 0 <= k < |records[1..]| && Judge(w, records[1..][k]) == Contradicts(FirstContradiction(w, records[1..]).value);
        assert records[k + 1] == records[1..][k];
      }
      if SomeContradicts(w, records) {
        var k :| 0 <= k < |records| && Judge(w, records[k]).Contradicts?;
        assert k > 0 ==> records[1..][k - 1] == records[k];
      }
    }
  }

  lemma {:induction false} LastPendingIs(w: World, records: seq<Record>)
    ensures LastPending(w, records).Some? <==> SomePending(w, records)
    ensures LastPending(w, records).Some? ==>
      exists k :: 0 <= k < |records| && Judge(w, records[k]) == Pending(LastPending(w, records).value)
  {
    hide Judge;
    if records != [] {
      var n := |records| - 1;
      LastPendingIs(w, records[..n]);
      assert records == records[..n] + [records[n]];
    }
  }

  /** The loop of `prepare_authorization_authenticity_context` past the snapshot checks. */
  method JudgeRecords(w: World, records: seq<Record>) returns (state: State, reason: Reason, issued: map<string, string>)
    requires forall i, j :: 0 <= i < j < |records| ==> records[i].memberId != records[j].memberId
    ensures state == Verdicts(w, records) && reason == ReasonOf(w, records)
    ensures state.PASS? ==> forall k :: 0 <= k < |records| ==>
      Authentic(w, records[k]) && records[k].memberId in issued && issued[records[k].memberId] == records[k].issuedAt
    ensures StateSaid(w, records, state)
  {
    StateIff(w, records);
    hide RolesMatch, Judge, Authentic, StateSaid;
    issued := map[];
    if !RolesMatch(w, records) {
      return CONTRADICTED, RoleSetMismatch, issued;
    }
    var pending: Option<Reason> := None;
    var k := 0;
    while k < |records|
      invariant 0 <= k <= |records|
      invariant forall j :: 0 <= j < k ==> !Judge(w, records[j]).Contradicts?
      invariant pending == LastPending(w, records[..k])
      invariant FirstContradiction(w, records) == FirstContradiction(w, records[k..])
      invariant pending.None? ==> forall j :: 0 <= j < k ==>
        Judge(w, records[j]).Good? && records[j].memberId in issued && issued[records[j].memberId] == records[j].issuedAt
    {
      var verdict := Judge(w, records[k]);
      assert records[..k + 1][..k] == records[..k] && records[k..][1..] == records[k + 1..];
      if verdict.Contradicts? {
        FirstContradictionIs(w, records);
        return CONTRADICTED, verdict.reason, issued;
      }
      if verdict.Pending? {
        pending := Some(verdict.reason);
      } else {
        issued := issued[records[k].memberId := records[k].issuedAt];
      }
      k := k + 1;
    }
    assert records[..k] == records;
    FirstContradictionIs(w, records);
    LastPendingIs(w, records);
    if pending.Some? {
      return UNVERIFIABLE, pending.value, issued;
    }
    forall j | 0 <= j < |records| ensures Authentic(w, records[j]) {
      GoodIsAuthentic(w, records[j]);
    }
    return PASS, Passed, issued;
  }

  // ---------- Order ----------

  lemma RolesForgetOrder(w: World, a: seq<Record>, b: seq<Record>)
    requires multiset(a) == multiset(b)
    ensures RolesMatch(w, a) == RolesMatch(w, b)
  {
    var key := RoleKey(w.norm);
    MappedSame((r: Record) => r.role, a, b);
    hide KeyLe, Mapped;
    forall x, y | x in RolesOf(a) && y in RolesOf(a) && ByKey(key)(x, y) && ByKey(key)(y, x) ensures x == y {
      KeyTotal(key(x), key(y));
      assert key(x)[1] == key(y)[1];
    }
    SortForgetsOrder(RolesOf(a), RolesOf(b), ByKey(key));
  }

  lemma SameMembers(a: seq<Record>, b: seq<Record>)
    requires multiset(a) == multiset(b)
    ensures forall k :: 0 <= k < |a| ==> a[k] in b
  {
    forall k | 0 <= k < |a| ensures a[k] in b {
      assert a[k] in multiset(b);
    }
  }

  /** The state does not depend on the order of the records. */
  lemma StateForgetsOrder(w: World, a: seq<Record>, b: seq<Record>)
    requires multiset(a) == multiset(b)
    ensures Verdicts(w, a) == Verdicts(w, b)
  {
    RolesForgetOrder(w, a, b);
    SomeKept(w, a, b);
    SomeKept(w, b, a);
  }

  lemma SomeKept(w: World, a: seq<Record>, b: seq<Record>)
    requires multiset(a) == multiset(b)
    ensures SomeContradicts(w, a) ==> SomeContradicts(w, b)
    ensures SomePending(w, a) ==> SomePending(w, b)
  {
    SameMembers(a, b);
    hide Judge;
    if SomeContradicts(w, a) {
      var k :| 0 <= k < |a| && Judge(w, a[k]).Contradicts?;
      assert a[k] in b;
    }
    if SomePending(w, a) {
      var k :| 0 <= k < |a| && Judge(w, a[k]).Pending?;
      assert a[k] in b;
    }
  }

  function RecordKey(norm: string -> string): Record -> seq<string> {
    (r: Record) => [norm(r.recordId), r.recordId]
  }

  /** The member list the record-set hash covers. */
  function SetSubject(norm: string -> string, records: seq<Record>): seq<Record> {
    Sort(records, ByKey(RecordKey(norm)))
  }

  /** Neither does the record-set hash, as record identifiers are distinct. */
  lemma SetHashForgetsOrder(norm: string -> string, a: seq<Record>, b: seq<Record>)
    requires multiset(a) == multiset(b) && forall i, j :: 0 <= i < j < |a| ==> a[i].recordId != a[j].recordId
    ensures SetSubject(norm, a) == SetSubject(norm, b)
  {
    var key := RecordKey(norm);
    hide KeyLe;
    forall x, y | x in a && y in a && ByKey(key)(x, y) && ByKey(key)(y, x) ensures x == y {
      KeyTotal(key(x), key(y));
      assert key(x)[1] == key(y)[1];
      var i :| 0 <= i < |a| && a[i] == x;
      var j :| 0 <= j < |a| && a[j] == y;
      assert i < j || i == j || j < i;
    }
    SortForgetsOrder(a, b, ByKey(key));
  }

  /** One reason among the records that decide the state. */
  ghost predicate OneReason(w: World, records: seq<Record>) {
    if SomeContradicts(w, records) then
      forall i, j :: 0 <= i < |records| && 0 <= j < |records| && Judge(w, records[i]).Contradicts? && Judge(w, records[j]).Contradicts? ==>
        Judge(w, records[i]) == Judge(w, records[j])
    else
      forall i, j :: 0 <= i < |records| && 0 <= j < |records| && Judge(w, records[i]).Pending? && Judge(w, records[j]).Pending? ==>
        Judge(w, records[i]) == Judge(w, records[j])
  }

  ghost predicate ReasonStable(w: World, records: seq<Record>) {
    forall other :: multiset(other) == multiset(records) ==> ReasonOf(w, other) == ReasonOf(w, records)
  }

  lemma SameContradiction(w: World, records: seq<Record>, other: seq<Record>)
    requires multiset(other) == multiset(records) && OneReason(w, records) && SomeContradicts(w, records)
    ensures FirstContradiction(w, other).Some? && FirstContradiction(w, records) == FirstContradiction(w, other)
  {
    SomeKept(w, records, other);
    SameMembers(other, records);
    FirstContradictionIs(w, records);
    FirstContradictionIs(w, other);
    hide Judge, FirstContradiction, SomePending;
    var i :| 0 <= i < |records| && Judge(w, records[i]) == Contradicts(FirstContradiction(w, records).value);
    var j :| 0 <= j < |other| && Judge(w, other[j]) == Contradicts(FirstContradiction(w, other).value);
    assert other[j] in records;
  }

  lemma SamePending(w: World, records: seq<Record>, other: seq<Record>)
    requires multiset(other) == multiset(records) && OneReason(w, records) && !SomeContradicts(w, records) && SomePending(w, records)
    ensures LastPending(w, other).Some? && LastPending(w, records) == LastPending(w, other)
  {
    SomeKept(w, records, other);
    SameMembers(other, records);
    LastPendingIs(w, records);
    LastPendingIs(w, other);
    hide Judge, LastPending, SomeContradicts;
    var i :| 0 <= i < |records| && Judge(w, records[i]) == Pending(LastPending(w, records).value);
    var j :| 0 <= j < |other| && Judge(w, other[j]) == Pending(LastPending(w, other).value);
    assert other[j] in records;
  }

  lemma ReasonOfMember(w: World, records: seq<Record>, other: seq<Record>)
    requires multiset(other) == multiset(records) && RolesMatch(w, records) && OneReason(w, records)
    ensures ReasonOf(w, other) == ReasonOf(w, records)
  {
    RolesForgetOrder(w, other, records);
    SomeKept(w, other, records);
    FirstContradictionIs(w, records);
    FirstContradictionIs(w, other);
    LastPendingIs(w, records);
    LastPendingIs(w, other);
    hide RolesMatch, Judge, FirstContradiction, LastPending, SomeContradicts, SomePending, OneReason;
    if SomeContradicts(w, records) {
      SameContradiction(w, records, other);
    } else if SomePending(w, records) {
      SamePending(w, records, other);
    }
  }

  lemma NoContradictionElsewhere(w: World, a: seq<Record>, b: seq<Record>)
    requires !SomeContradicts(w, a) && forall k :: 0 <= k < |b| ==> b[k] in a
    ensures !SomeContradicts(w, b)
  {
    hide Judge;
    forall k | 0 <= k < |b| ensures !Judge(w, b[k]).Contradicts? {
      assert b[k] in a;
    }
  }

  lemma FirstFirst(w: World, a: Record, rest: seq<Record>)
    requires Judge(w, a).Contradicts?
    ensures FirstContradiction(w, [a] + rest) == Some(Judge(w, a).reason)
  {}

  lemma LastLast(w: World, rest: seq<Record>, a: Record)
    requires Judge(w, a).Pending?
    ensures LastPending(w, rest + [a]) == Some(Judge(w, a).reason)
  {}

  lemma Unstable(w: World, records: seq<Record>, x: seq<Record>, y: seq<Record>)
    requires multiset(x) == multiset(records) && multiset(y) == multiset(records) && ReasonOf(w, x) != ReasonOf(w, y)
    ensures !ReasonStable(w, records)
  {
    hide ReasonOf;
    assert ReasonOf(w, x) != ReasonOf(w, records) || ReasonOf(w, y) != ReasonOf(w, records);
  }

  lemma FrontReason(w: World, records: seq<Record>, a: Record, rest: seq<Record>)
    requires RolesMatch(w, records) && multiset([a] + rest) == multiset(records) && Judge(w, a).Contradicts?
    ensures ReasonOf(w, [a] + rest) == Judge(w, a).reason
  {
    hide RolesMatch, Judge;
    RolesForgetOrder(w, records, [a] + rest);
    FirstFirst(w, a, rest);
  }

  lemma BackReason(w: World, records: seq<Record>, rest: seq<Record>, a: Record)
    requires RolesMatch(w, records) && multiset(rest + [a]) == multiset(records) && Judge(w, a).Pending? && !SomeContradicts(w, records)
    ensures ReasonOf(w, rest + [a]) == Judge(w, a).reason
  {
    hide RolesMatch, Judge;
    var x := rest + [a];
    RolesForgetOrder(w, records, x);
    SameMembers(x, records);
    NoContradictionElsewhere(w, records, x);
    FirstContradictionIs(w, x);
    LastLast(w, rest, a);
  }

  /** Two records that contradict for different reasons: the one listed first names the reason. */
  lemma ContradictionsDisagree(w: World, records: seq<Record>, a: Record, b: Record)
    requires RolesMatch(w, records) && a in records && b in records
    requires Judge(w, a).Contradicts? && Judge(w, b).Contradicts? && Judge(w, a) != Judge(w, b)
    ensures !ReasonStable(w, records)
  {
    hide *;
    var rest := PutFirst(records, a, b);
    var x, y := [b] + rest, [a] + rest;
    assert [a, b] + rest == [a] + x && [b, a] + rest == [b] + y;
    FrontReason(w, records, a, x);
    FrontReason(w, records, b, y);
    Unstable(w, records, [a] + x, [b] + y);
  }

  /** Two records pending for different reasons: the one listed last names the reason. */
  lemma PendingsDisagree(w: World, records: seq<Record>, a: Record, b: Record)
    requires RolesMatch(w, records) && a in records && b in records && !SomeContradicts(w, records)
    requires Judge(w, a).Pending? && Judge(w, b).Pending? && Judge(w, a) != Judge(w, b)
    ensures !ReasonStable(w, records)
  {
    hide *;
    var rest := PutFirst(records, a, b);
    var x, y := rest + [b], rest + [a];
    assert multiset(x + [a]) == multiset([a, b] + rest) && multiset(y + [b]) == multiset([a, b] + rest);
    BackReason(w, records, x, a);
    BackReason(w, records, y, b);
    Unstable(w, records, x + [a], y + [b]);
  }

  /** The reason code, and with it the context hash, is independent of record order exactly when the deciding
      records share one reason. */
  lemma ReasonStableIff(w: World, records: seq<Record>)
    requires RolesMatch(w, records)
    ensures ReasonStable(w, records) <==> OneReason(w, records)
  {
    hide RolesMatch, Judge, ReasonOf;
    if OneReason(w, records) {
      forall other | multiset(other) == multiset(records) ensures ReasonOf(w, other) == ReasonOf(w, records) {
        ReasonOfMember(w, records, other);
      }
    } else if SomeContradicts(w, records) {
      var i, j :| 0 <= i < |records| && 0 <= j < |records| && Judge(w, records[i]).Contradicts? && Judge(w, records[j]).Contradicts?
        && Judge(w, records[i]) != Judge(w, records[j]);
      ContradictionsDisagree(w, records, records[i], records[j]);
    } else {
      var i, j :| 0 <= i < |records| && 0 <= j < |records| && Judge(w, records[i]).Pending? && Judge(w, records[j]).Pending?
        && Judge(w, records[i]) != Judge(w, records[j]);
      PendingsDisagree(w, records, records[i], records[j]);
    }
  }

  // ---------- Inputs on which the reason depends on order ----------

  const OWNER := "PROCESS_OWNER"
  const MANAGER := "QUALITY_MANAGER"

  function SampleKey(status: Revocation): IssuerKey {
    IssuerKey(status, {OWNER, MANAGER}, {"p"}, {"s"}, "t", "t", "k")
  }

  /** Keys "r" revoked, "a" active, "u" of unknown status; no signature verifies. */
  function SampleWorld(): World {
    World((text: string) => text, (text: string) => 0, (key: string, r: Record) => false, [OWNER, MANAGER], "d",
          map[("i", "r") := SampleKey(Revoked), ("i", "a") := SampleKey(Active), ("i", "u") := SampleKey(UnknownStatus)])
  }

  function SampleRecord(id: string, role: string, key: string): Record {
    Record(id, id, "d", "i", key, role, "p", "s", "t", "t", "t", "h", "n")
  }

  lemma RolesInPairs(w: World, x: Record, y: Record, p: string, q: string)
    requires x.role == p && y.role == q && w.roles == [p, q] && ByKey(RoleKey(w.norm))(p, q)
    ensures RolesAsRequired(w, [x, y]) && RolesAsRequired(w, [y, x])
  {
    hide ByKey, RoleKey, RolesOf;
    assert RolesOf([x, y]) == [p, q];
    assert RolesOf([y, x]) == [q, p];
    assert multiset([p, q]) == multiset([q, p]);
    assert Sorted([p, q], ByKey(RoleKey(w.norm)));
  }

  lemma InRoleOrder(w: World, x: Record, y: Record, p: string, q: string)
    requires x.role == p && y.role == q && w.roles == [p, q] && ByKey(RoleKey(w.norm))(p, q)
    ensures RolesMatch(w, [x, y]) && RolesMatch(w, [y, x])
  {
    hide *;
    RolesInPairs(w, x, y, p, q);
    RolesMatchIff(w, [x, y]);
    RolesMatchIff(w, [y, x]);
  }

  lemma SampleRoles(key: string, other: string)
    ensures RolesMatch(SampleWorld(), [SampleRecord("1", OWNER, key), SampleRecord("2", MANAGER, other)])
    ensures RolesMatch(SampleWorld(), [SampleRecord("2", MANAGER, other), SampleRecord("1", OWNER, key)])
  {
    SampleOrder();
    hide RolesMatch, ByKey, RoleKey;
    InRoleOrder(SampleWorld(), SampleRecord("1", OWNER, key), SampleRecord("2", MANAGER, other), OWNER, MANAGER);
  }

  lemma SampleOrder()
    ensures ByKey(RoleKey(SampleWorld().norm))(OWNER, MANAGER)
  {
    assert OWNER[0] == 'P' && MANAGER[0] == 'Q';
    assert TextLe(OWNER, MANAGER) && OWNER != MANAGER;
  }

  lemma SampleVerdicts()
    ensures Judge(SampleWorld(), SampleRecord("1", OWNER, "r")) == Contradicts(KeyRevoked)
    ensures Judge(SampleWorld(), SampleRecord("2", MANAGER, "a")) == Contradicts(SignatureInvalid)
    ensures Judge(SampleWorld(), SampleRecord("1", OWNER, "x")) == Pending(KeyNotFound)
    ensures Judge(SampleWorld(), SampleRecord("2", MANAGER, "u")) == Pending(KeyStatusUnknown)
  {
    assert "r"[0] == 'r' && "a"[0] == 'a' && "u"[0] == 'u' && "x"[0] == 'x';
    assert ("i", "x") !in SampleWorld().keys;
  }

  /** A revoked key and an invalid signature: the record listed first names the reason. */
  lemma ContradictionsInput()
    ensures var w, x, y := SampleWorld(), SampleRecord("1", OWNER, "r"), SampleRecord("2", MANAGER, "a");
      RolesMatch(w, [x, y]) && RolesMatch(w, [y, x]) && ReasonOf(w, [x, y]) == KeyRevoked && ReasonOf(w, [y, x]) == SignatureInvalid
  {
    SampleRoles("r", "a");
    SampleVerdicts();
    hide Judge, RolesMatch, SampleWorld, SampleRecord;
    FirstFirst(SampleWorld(), SampleRecord("1", OWNER, "r"), [SampleRecord("2", MANAGER, "a")]);
    FirstFirst(SampleWorld(), SampleRecord("2", MANAGER, "a"), [SampleRecord("1", OWNER, "r")]);
  }

  /** A missing key and a key of unknown status: the record listed last names the reason. */
  lemma PendingsInput()
    ensures var w, x, y := SampleWorld(), SampleRecord("1", OWNER, "x"), SampleRecord("2", MANAGER, "u");
      RolesMatch(w, [x, y]) && RolesMatch(w, [y, x]) && ReasonOf(w, [x, y]) == KeyStatusUnknown && ReasonOf(w, [y, x]) == KeyNotFound
  {
    var w, x, y := SampleWorld(), SampleRecord("1", OWNER, "x"), SampleRecord("2", MANAGER, "u");
    SampleRoles("x", "u");
    SampleVerdicts();
    hide Judge, RolesMatch, SampleWorld, SampleRecord, FirstContradiction, LastPending;
    assert !SomeContradicts(w, [x, y]) && !SomeContradicts(w, [y, x]);
    FirstContradictionIs(w, [x, y]);
    FirstContradictionIs(w, [y, x]);
    LastLast(w, [x], y);
    LastLast(w, [y], x);
    assert [x] + [y] == [x, y] && [y] + [x] == [y, x];
  }
}

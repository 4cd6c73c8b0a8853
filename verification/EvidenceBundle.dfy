/** The raw validation bundle: its manifest check, and the evidence set prepared from it. */
module EvidenceBundle {
  import opened Json
  import opened Ordering
  import opened ValidationEvidence
  import C = Canonical
  import CaseLists

  datatype Member = Member(sourceId: string, id: string, filename: string, raw: string)

  /** A manifest entry; its format is fixed and its phase is the manifest's. */
  datatype Spec = Spec(sourceId: string, id: string, filename: string)

  datatype Bundle = Bundle(phase: string, specs: seq<Spec>, members: seq<Member>)

  /** `read` parses a member into its report, None where a claim is malformed; `digest` hashes its bytes. */
  datatype Reading = Reading(norm: string -> string, read: Member -> Option<Report>, digest: string -> string)

  datatype SourcedReport = SourcedReport(report: Report, sourceId: string, filename: string, hash: string, phase: string)

  /** What the evidence-set hash covers. */
  datatype EvidenceSet = EvidenceSet(subject: string, scope: string, phase: string, specs: seq<Spec>, reports: seq<SourcedReport>)

  // ---------- The manifest ----------

  function SourceKey(norm: string -> string): Spec -> seq<string> {
    (s: Spec) => [norm(s.sourceId)]
  }

  function FileKey(norm: string -> string): Spec -> seq<string> {
    (s: Spec) => [norm(s.filename)]
  }

  function IdentityKey(norm: string -> string): Spec -> seq<string> {
    (s: Spec) => [norm(s.id)]
  }

  function ManifestKey(norm: string -> string): Spec -> seq<string> {
    (s: Spec) => [norm(s.id), s.id]
  }

  function MemberKey(): Member -> seq<string> {
    (m: Member) => [m.id]
  }

  function SpecOf(m: Member): Spec {
    Spec(m.sourceId, m.id, m.filename)
  }

  function SpecsOf(members: seq<Member>): (r: seq<Spec>)
    ensures |r| == |members| && forall k :: 0 <= k < |r| ==> r[k] == SpecOf(members[k])
  {
    Mapped(SpecOf, members)
  }

  /** The manifest is in canonical order, names nothing twice, and lists the members, each once. */
  ghost predicate BundleOk(norm: string -> string, b: Bundle) {
    && b.specs != []
    && C.DistinctBy(b.specs, SourceKey(norm)) && C.DistinctBy(b.specs, IdentityKey(norm)) && C.DistinctBy(b.specs, FileKey(norm))
    && Sort(b.specs, ByKey(ManifestKey(norm))) == b.specs
    && C.DistinctBy(b.members, MemberKey()) && multiset(SpecsOf(b.members)) == multiset(b.specs)
  }

  ghost predicate Indexes(members: seq<Member>, index: map<string, Member>, n: nat)
    requires n <= |members|
  {
    && (forall k :: 0 <= k < n ==> members[k].id in index && index[members[k].id] == members[k])
    && (forall id :: id in index ==> index[id] in members && index[id].id == id)
  }

  method IndexMembers(members: seq<Member>) returns (index: map<string, Member>)
    requires C.DistinctBy(members, MemberKey())
    ensures Indexes(members, index, |members|)
  {
    index := map[];
    var k := 0;
    while k < |members|
      invariant 0 <= k <= |members| && Indexes(members, index, k)
    {
      forall i | 0 <= i < k ensures members[i].id != members[k].id {
        assert MemberKey()(members[i]) != MemberKey()(members[k]);
      }
      index := index[members[k].id := members[k]];
      k := k + 1;
    }
  }

  /** Every entry has its member and every member its entry. */
  ghost predicate Agree(specs: seq<Spec>, members: seq<Member>) {
    && (forall i :: 0 <= i < |specs| ==> specs[i] in SpecsOf(members))
    && (forall k :: 0 <= k < |members| ==> SpecOf(members[k]) in specs)
  }

  lemma AgreeIsRearranged(norm: string -> string, specs: seq<Spec>, members: seq<Member>)
    requires C.DistinctBy(specs, IdentityKey(norm)) && C.DistinctBy(members, MemberKey())
    ensures Agree(specs, members) <==> multiset(SpecsOf(members)) == multiset(specs)
  {
    var listed := SpecsOf(members);
    forall i, j | 0 <= i < j < |listed| ensures listed[i] != listed[j] {
      assert MemberKey()(members[i]) != MemberKey()(members[j]);
    }
    forall i, j | 0 <= i < j < |specs| ensures specs[i] != specs[j] {
      assert IdentityKey(norm)(specs[i]) != IdentityKey(norm)(specs[j]);
    }
    if Agree(specs, members) {
      SameMembersRearranged(listed, specs);
    }
    if multiset(listed) == multiset(specs) {
      forall i | 0 <= i < |specs| ensures specs[i] in listed {
        assert specs[i] in multiset(listed);
      }
      forall k | 0 <= k < |members| ensures SpecOf(members[k]) in specs {
        assert listed[k] in multiset(specs);
      }
    }
  }

  method MembersAgree(specs: seq<Spec>, members: seq<Member>) returns (ok: bool)
    requires C.DistinctBy(members, MemberKey())
    ensures ok <==> Agree(specs, members)
  {
    var index := IndexMembers(members);
    var ids := set i: nat | i < |specs| :: specs[i].id;
    var k := 0;
    while k < |members|
      invariant 0 <= k <= |members| && forall j :: 0 <= j < k ==> members[j].id in ids
    {
      if members[k].id !in ids {
        Unlisted(specs, members[k]);
        return false;
      }
      k := k + 1;
    }
    var i := 0;
    while i < |specs|
      invariant 0 <= i <= |specs|
      invariant forall j :: 0 <= j < i ==> specs[j].id in index && SpecOf(index[specs[j].id]) == specs[j]
    {
      if specs[i].id !in index || SpecOf(index[specs[i].id]) != specs[i] {
        NoMember(specs[i], members, index);
        return false;
      }
      i := i + 1;
    }
    AllMatched(specs, members, index);
    return true;
  }

  lemma Unlisted(specs: seq<Spec>, m: Member)
    requires forall i :: 0 <= i < |specs| ==> specs[i].id != m.id
    ensures SpecOf(m) !in specs
  {}

  lemma NoMember(s: Spec, members: seq<Member>, index: map<string, Member>)
    requires Indexes(members, index, |members|) && (s.id !in index || SpecOf(index[s.id]) != s)
    ensures s !in SpecsOf(members)
  {
    forall k | 0 <= k < |members| ensures SpecsOf(members)[k] != s {
      assert index[members[k].id] == members[k];
    }
  }

  lemma AllMatched(specs: seq<Spec>, members: seq<Member>, index: map<string, Member>)
    requires Indexes(members, index, |members|)
    requires forall i :: 0 <= i < |specs| ==> specs[i].id in index && SpecOf(index[specs[i].id]) == specs[i]
    requires forall k :: 0 <= k < |members| ==> exists i :: 0 <= i < |specs| && specs[i].id == members[k].id
    ensures Agree(specs, members)
  {
    forall i | 0 <= i < |specs| ensures specs[i] in SpecsOf(members) {
      var k :| 0 <= k < |members| && members[k] == index[specs[i].id];
      assert SpecsOf(members)[k] == specs[i];
    }
    forall k | 0 <= k < |members| ensures SpecOf(members[k]) in specs {
      var i :| 0 <= i < |specs| && specs[i].id == members[k].id;
      assert index[members[k].id] == members[k];
    }
  }

  /** `_validate_bundle`, shapes aside. */
  method ValidateBundle(norm: string -> string, b: Bundle) returns (ok: bool)
    ensures ok <==> BundleOk(norm, b)
  {
    hide C.DistinctBy, SourceKey, FileKey, IdentityKey, MemberKey, ManifestKey, ByKey, Sort, Agree, Indexes;
    if b.specs == [] {
      return false;
    }
    ok := CaseLists.AllDistinct(b.specs, SourceKey(norm));
    if !ok { return; }
    ok := CaseLists.AllDistinct(b.specs, IdentityKey(norm));
    if !ok { return; }
    ok := CaseLists.AllDistinct(b.specs, FileKey(norm));
    if !ok { return; }
    if Sort(b.specs, ByKey(ManifestKey(norm))) != b.specs {
      return false;
    }
    ok := CaseLists.AllDistinct(b.members, MemberKey());
    if !ok { return; }
    ok := MembersAgree(b.specs, b.members);
    AgreeIsRearranged(norm, b.specs, b.members);
  }

  // ---------- The manifest, spelled out ----------

  ghost predicate NamesNoneTwice(norm: string -> string, specs: seq<Spec>) {
    forall i, j :: 0 <= i < j < |specs| ==>
      && norm(specs[i].sourceId) != norm(specs[j].sourceId) && norm(specs[i].id) != norm(specs[j].id)
      && norm(specs[i].filename) != norm(specs[j].filename)
  }

  ghost predicate Lists(s: Spec, m: Member) {
    s.sourceId == m.sourceId && s.id == m.id && s.filename == m.filename
  }

  /** Entries in the order of their normalized identifiers, none repeated in any name; an entry for each member and a
      member for each entry. */
  ghost predicate ProperManifest(norm: string -> string, b: Bundle) {
    && |b.specs| >= 1 && NamesNoneTwice(norm, b.specs)
    && InOrder(norm, b.specs) && MembersApart(b.members)
    && (forall i :: 0 <= i < |b.specs| ==> HasMember(b.specs[i], b.members))
    && (forall k :: 0 <= k < |b.members| ==> HasEntry(b.members[k], b.specs))
  }

  ghost predicate InOrder(norm: string -> string, specs: seq<Spec>) {
    forall i, j :: 0 <= i < j < |specs| ==> TextLe(norm(specs[i].id), norm(specs[j].id))
  }

  ghost predicate MembersApart(members: seq<Member>) {
    forall i, j :: 0 <= i < j < |members| ==> members[i].id != members[j].id
  }

  ghost predicate HasMember(s: Spec, members: seq<Member>) {
    exists k :: 0 <= k < |members| && Lists(s, members[k])
  }

  ghost predicate HasEntry(m: Member, specs: seq<Spec>) {
    exists i :: 0 <= i < |specs| && Lists(specs[i], m)
  }

  lemma NamesIff(norm: string -> string, specs: seq<Spec>)
    ensures NamesNoneTwice(norm, specs) <==>
      C.DistinctBy(specs, SourceKey(norm)) && C.DistinctBy(specs, IdentityKey(norm)) && C.DistinctBy(specs, FileKey(norm))
  {
    forall x: Spec, y: Spec
      ensures SourceKey(norm)(x) != SourceKey(norm)(y) <==> norm(x.sourceId) != norm(y.sourceId)
      ensures IdentityKey(norm)(x) != IdentityKey(norm)(y) <==> norm(x.id) != norm(y.id)
      ensures FileKey(norm)(x) != FileKey(norm)(y) <==> norm(x.filename) != norm(y.filename)
    {
      assert [norm(x.sourceId)][0] == norm(x.sourceId) && [norm(x.id)][0] == norm(x.id) && [norm(x.filename)][0] == norm(x.filename);
    }
    hide SourceKey, IdentityKey, FileKey;
  }

  lemma OrderIff(norm: string -> string, specs: seq<Spec>)
    requires NamesNoneTwice(norm, specs)
    ensures Sort(specs, ByKey(ManifestKey(norm))) == specs <==> InOrder(norm, specs)
  {
    var le := ByKey(ManifestKey(norm));
    SortSorts(specs, le);
    if Sorted(specs, le) {
      SortFixesSorted(specs, le);
    }
    hide Sort;
    forall i, j | 0 <= i < j < |specs| ensures le(specs[i], specs[j]) <==> TextLe(norm(specs[i].id), norm(specs[j].id)) {
      var x, y := ManifestKey(norm)(specs[i]), ManifestKey(norm)(specs[j]);
      assert x[0] == norm(specs[i].id) && y[0] == norm(specs[j].id);
    }
  }

  lemma MembersApartIff(members: seq<Member>)
    ensures C.DistinctBy(members, MemberKey()) <==> MembersApart(members)
  {
    forall x: Member, y: Member ensures MemberKey()(x) != MemberKey()(y) <==> x.id != y.id {
      assert [x.id][0] == x.id;
    }
    hide MemberKey;
  }

  lemma HasMemberIff(s: Spec, members: seq<Member>)
    ensures s in SpecsOf(members) <==> HasMember(s, members)
  {
    if s in SpecsOf(members) {
      var k :| 0 <= k < |SpecsOf(members)| && SpecsOf(members)[k] == s;
      assert Lists(s, members[k]);
    }
    if HasMember(s, members) {
      var k :| 0 <= k < |members| && Lists(s, members[k]);
      assert SpecsOf(members)[k] == s;
    }
  }

  lemma HasEntryIff(m: Member, specs: seq<Spec>)
    ensures SpecOf(m) in specs <==> HasEntry(m, specs)
  {
    if SpecOf(m) in specs {
      var i :| 0 <= i < |specs| && specs[i] == SpecOf(m);
      assert Lists(specs[i], m);
    }
  }

  lemma AgreeIff(specs: seq<Spec>, members: seq<Member>)
    ensures Agree(specs, members) <==>
      && (forall i :: 0 <= i < |specs| ==> HasMember(specs[i], members))
      && (forall k :: 0 <= k < |members| ==> HasEntry(members[k], specs))
  {
    forall i | 0 <= i < |specs| ensures specs[i] in SpecsOf(members) <==> HasMember(specs[i], members) {
      HasMemberIff(specs[i], members);
    }
    forall k | 0 <= k < |members| ensures SpecOf(members[k]) in specs <==> HasEntry(members[k], specs) {
      HasEntryIff(members[k], specs);
    }
    hide SpecsOf, SpecOf, HasMember, HasEntry;
  }

  /** A bundle passes exactly when its manifest is proper. */
  lemma BundleIff(norm: string -> string, b: Bundle)
    ensures BundleOk(norm, b) <==> ProperManifest(norm, b)
  {
    hide NamesNoneTwice, C.DistinctBy, SourceKey, IdentityKey, FileKey, MemberKey, ManifestKey, ByKey, Sort, Agree, SpecsOf, InOrder, MembersApart,
      HasMember, HasEntry;
    NamesIff(norm, b.specs);
    MembersApartIff(b.members);
    AgreeIff(b.specs, b.members);
    if NamesNoneTwice(norm, b.specs) {
      OrderIff(norm, b.specs);
    }
    if C.DistinctBy(b.specs, IdentityKey(norm)) && C.DistinctBy(b.members, MemberKey()) {
      AgreeIsRearranged(norm, b.specs, b.members);
    }
  }

  // ---------- The evidence set ----------

  predicate Readable(w: Reading, m: Member) {
    w.read(m).Some? && w.read(m).value.id == m.id
  }

  ghost predicate AllReadable(w: Reading, members: seq<Member>) {
    forall k :: 0 <= k < |members| ==> Readable(w, members[k])
  }

  /** The members in identifier order. */
  function Ordered(members: seq<Member>): (r: seq<Member>)
    ensures multiset(r) == multiset(members)
  {
    Sort(members, ByKey(MemberKey()))
  }

  function Sourced(w: Reading, phase: string, m: Member): SourcedReport
    requires Readable(w, m)
  {
    SourcedReport(w.read(m).value, m.sourceId, m.filename, w.digest(m.raw), phase)
  }

  ghost function SourcedAll(w: Reading, phase: string, members: seq<Member>): (r: seq<SourcedReport>)
    requires AllReadable(w, members)
    ensures |r| == |members| && forall k :: 0 <= k < |r| ==> r[k] == Sourced(w, phase, members[k])
  {
    seq(|members|, k requires 0 <= k < |members| => Sourced(w, phase, members[k]))
  }

  lemma ReadableKept(w: Reading, a: seq<Member>, b: seq<Member>)
    requires multiset(a) == multiset(b) && AllReadable(w, a)
    ensures AllReadable(w, b)
  {
    forall k | 0 <= k < |b| ensures Readable(w, b[k]) {
      assert b[k] in multiset(a);
    }
  }

  ghost predicate OrderedReadable(w: Reading, members: seq<Member>) {
    AllReadable(w, Ordered(members))
  }

  lemma OrderedReadableIff(w: Reading, members: seq<Member>)
    ensures OrderedReadable(w, members) <==> AllReadable(w, members)
  {
    if AllReadable(w, members) {
      ReadableKept(w, members, Ordered(members));
    }
    if OrderedReadable(w, members) {
      ReadableKept(w, Ordered(members), members);
    }
  }

  ghost function SetOf(w: Reading, b: Bundle, subject: string, scope: string): EvidenceSet
    requires OrderedReadable(w, b.members)
  {
    EvidenceSet(subject, scope, b.phase, b.specs, SourcedAll(w, b.phase, Ordered(b.members)))
  }

  /** `_prepare_validation_evidence_context` up to the hash. By the time the reports are read, manifest entries
      and members match one to one, so reading by sorted identifier is reading the members in that order. */
  method PrepareSet(w: Reading, b: Bundle, subject: string, scope: string, phase: string) returns (r: Option<EvidenceSet>)
    ensures r.Some? <==> BundleOk(w.norm, b) && b.phase == phase && OrderedReadable(w, b.members)
    ensures r.Some? ==> r.value == SetOf(w, b, subject, scope)
  {
    hide BundleOk, Readable, Ordered;
    var ok := ValidateBundle(w.norm, b);
    if !ok || b.phase != phase {
      return None;
    }
    var ordered := Ordered(b.members);
    var reports: seq<SourcedReport> := [];
    var k := 0;
    while k < |ordered|
      invariant 0 <= k <= |ordered| && |reports| == k
      invariant forall i :: 0 <= i < k ==> Readable(w, ordered[i]) && reports[i] == Sourced(w, phase, ordered[i])
    {
      if !Readable(w, ordered[k]) {
        return None;
      }
      reports := reports + [Sourced(w, phase, ordered[k])];
      k := k + 1;
    }
    assert reports == SourcedAll(w, phase, ordered);
    return Some(EvidenceSet(subject, scope, phase, b.specs, reports));
  }

  /** The report carries the member's claims, source, file name and byte hash, and the phase. */
  ghost predicate ReportsMember(w: Reading, phase: string, r: SourcedReport, m: Member) {
    && w.read(m) == Some(r.report) && r.report.id == m.id
    && r.sourceId == m.sourceId && r.filename == m.filename && r.hash == w.digest(m.raw) && r.phase == phase
  }

  lemma SourcedReports(w: Reading, phase: string, m: Member)
    requires Readable(w, m)
    ensures ReportsMember(w, phase, Sourced(w, phase, m), m)
  {}

  /** The members in the order the set reports them. */
  ghost predicate Reported(w: Reading, b: Bundle, made: EvidenceSet, order: seq<Member>) {
    && multiset(order) == multiset(b.members) && |made.reports| == |order|
    && (forall k :: 0 <= k < |order| ==> ReportsMember(w, b.phase, made.reports[k], order[k]))
    && (forall i, j :: 0 <= i < j < |order| ==> TextLe(order[i].id, order[j].id))
  }

  lemma OrderedById(members: seq<Member>)
    ensures forall i, j :: 0 <= i < j < |Ordered(members)| ==> TextLe(Ordered(members)[i].id, Ordered(members)[j].id)
  {
    var order := Ordered(members);
    SortSorts(members, ByKey(MemberKey()));
    hide Sort;
    forall i, j | 0 <= i < j < |order| ensures TextLe(order[i].id, order[j].id) {
      var x, y := MemberKey()(order[i]), MemberKey()(order[j]);
      assert KeyLe(x, y) && x[0] == order[i].id && y[0] == order[j].id;
    }
  }

  /** The set reports every member once, by identifier, for the subject, scope, phase and manifest it is made for. */
  lemma SetHolds(w: Reading, b: Bundle, subject: string, scope: string)
    requires OrderedReadable(w, b.members)
    ensures var made := SetOf(w, b, subject, scope);
      && made.subject == subject && made.scope == scope && made.phase == b.phase && made.specs == b.specs
      && exists order :: Reported(w, b, made, order)
  {
    var order := Ordered(b.members);
    var made := SetOf(w, b, subject, scope);
    hide Ordered, Readable, ReportsMember, Sourced, TextLe;
    OrderedById(b.members);
    forall k | 0 <= k < |order| ensures ReportsMember(w, b.phase, made.reports[k], order[k]) {
      assert Readable(w, order[k]);
      SourcedReports(w, b.phase, order[k]);
    }
    assert Reported(w, b, made, order);
  }

  // ---------- What the set depends on ----------

  lemma OrderedForgets(a: seq<Member>, b: seq<Member>)
    requires C.DistinctBy(a, MemberKey()) && multiset(a) == multiset(b)
    ensures Ordered(a) == Ordered(b)
  {
    C.SortAgrees(a, b, MemberKey(), MemberKey());
  }

  /** The manifest adds nothing to the members: its entries and their order follow from them. */
  lemma ManifestForgets(norm: string -> string, a: Bundle, b: Bundle)
    requires BundleOk(norm, a) && BundleOk(norm, b) && multiset(a.members) == multiset(b.members)
    ensures a.specs == b.specs
  {
    hide C.DistinctBy, KeyLe, Sort;
    MappedSame(SpecOf, a.members, b.members);
    C.SortAgrees(a.specs, b.specs, IdentityKey(norm), ManifestKey(norm)) by {
      hide ByKey;
      assert forall x, y :: ManifestKey(norm)(x) == ManifestKey(norm)(y) ==> x.id == y.id by {
        forall x, y | ManifestKey(norm)(x) == ManifestKey(norm)(y) ensures x.id == y.id {
          assert ManifestKey(norm)(x)[1] == ManifestKey(norm)(y)[1];
        }
      }
    }
  }

  lemma MembersFixed(w: Reading, pa: string, pb: string, a: seq<Member>, b: seq<Member>)
    requires AllReadable(w, a) && AllReadable(w, b) && SourcedAll(w, pa, a) == SourcedAll(w, pb, b)
    requires forall x, y :: w.digest(x) == w.digest(y) ==> x == y
    ensures a == b
  {
    var x, y := SourcedAll(w, pa, a), SourcedAll(w, pb, b);
    forall k | 0 <= k < |a| ensures a[k] == b[k] {
      assert x[k] == y[k] && x[k].report.id == a[k].id && y[k].report.id == b[k].id;
    }
  }

  /** Two accepted bundles give one evidence set exactly when they hold the same members, in any order, for one
      phase, subject and scope; the byte hash is taken to be injective. */
  lemma SameSetIff(w: Reading, a: Bundle, b: Bundle, sa: string, sb: string, ca: string, cb: string)
    requires BundleOk(w.norm, a) && BundleOk(w.norm, b) && OrderedReadable(w, a.members) && OrderedReadable(w, b.members)
    requires forall x, y :: w.digest(x) == w.digest(y) ==> x == y
    ensures SetOf(w, a, sa, ca) == SetOf(w, b, sb, cb) <==>
      sa == sb && ca == cb && a.phase == b.phase && multiset(a.members) == multiset(b.members)
  {
    hide Readable, SourcedAll, Ordered, Sort, ByKey;
    if SetOf(w, a, sa, ca) == SetOf(w, b, sb, cb) {
      MembersFixed(w, a.phase, b.phase, Ordered(a.members), Ordered(b.members));
      assert multiset(Ordered(a.members)) == multiset(a.members);
    }
    if multiset(a.members) == multiset(b.members) {
      OrderedForgets(a.members, b.members);
      ManifestForgets(w.norm, a, b);
    }
  }
}

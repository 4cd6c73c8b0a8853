/** The projection as the code runs it: the event's lists are copied and sorted in place, so the caller's
    lists are left alone; documents are handled as values. */
module CaseLists {
  import opened Json
  import opened Ordering
  import C = Canonical

  /** A Python list. */
  class Items {
    var items: seq<Json>

    constructor (items: seq<Json>)
      ensures this.items == items
    {
      this.items := items;
    }

    /** `list.sort(key=...)`. */
    method SortInPlace(key: Json -> seq<string>)
      modifies this
      ensures items == Sort(old(items), ByKey(key))
    {
      items := Sort(items, ByKey(key));
    }
  }

  /** Dictionaries are copied with `dict(...)` before any assignment, so they are values that share lists. */
  datatype EventDict = EventDict(steps: Items, characteristics: Items, links: Option<Items>, approvals: Option<Items>,
                                 evidence: Option<Items>, required: Option<Items>, rest: map<string, Json>)

  datatype CaseDict = CaseDict(event: EventDict, documents: seq<C.Document>, rest: map<string, Json>)

  // ---------- What a dictionary of lists stands for ----------

  function ListOf(l: Option<Items>): set<Items> {
    if l.Some? then {l.value} else {}
  }

  function EventLists(e: EventDict): set<Items> {
    {e.steps, e.characteristics} + ListOf(e.links) + ListOf(e.approvals) + ListOf(e.evidence) + ListOf(e.required)
  }

  function ContentsOf(l: Option<Items>): Option<seq<Json>>
    reads ListOf(l)
  {
    if l.Some? then Some(l.value.items) else None
  }

  function EventOf(e: EventDict): C.Event
    reads EventLists(e)
  {
    C.Event(e.steps.items, e.characteristics.items, ContentsOf(e.links), ContentsOf(e.approvals), ContentsOf(e.evidence), ContentsOf(e.required), e.rest)
  }

  function CaseOf(c: CaseDict): C.Case
    reads EventLists(c.event)
  {
    C.Case(EventOf(c.event), c.documents, c.rest)
  }

  // ---------- Copy, then sort ----------

  method SortedCopy(list: Items, key: Json -> seq<string>) returns (r: Items)
    ensures fresh(r) && r.items == Sort(list.items, ByKey(key))
  {
    r := new Items(list.items);
    r.SortInPlace(key);
  }

  method SortedCopyOption(list: Option<Items>, key: Json -> seq<string>) returns (r: Option<Items>)
    ensures r.Some? == list.Some? && (r.Some? ==> fresh(r.value))
    ensures ContentsOf(r) == C.SortedOption(ContentsOf(list), key)
  {
    if list.None? {
      return None;
    }
    var copied := SortedCopy(list.value, key);
    return Some(copied);
  }

  method ProjectEvent(norm: C.Norm, e: EventDict) returns (r: EventDict)
    ensures fresh(EventLists(r)) && EventOf(r) == C.ProjectEvent(norm, EventOf(e))
    ensures r.required.Some? ==> r.required.value !in {r.steps, r.characteristics} + ListOf(r.links)
  {
    hide TotalPreorder, ByKey, Sort, C.IdentityKey, C.LinkKey, C.ApprovalKey, C.EvidenceKey, C.RequiredKey, C.SortedOption;
    var steps := SortedCopy(e.steps, C.IdentityKey(norm));
    var characteristics := SortedCopy(e.characteristics, C.IdentityKey(norm));
    var links := SortedCopyOption(e.links, C.LinkKey(norm));
    var approvals := SortedCopyOption(e.approvals, C.ApprovalKey(norm));
    var evidence := SortedCopyOption(e.evidence, C.EvidenceKey(norm));
    var required := SortedCopyOption(e.required, C.RequiredKey(norm));
    r := EventDict(steps, characteristics, links, approvals, evidence, required, e.rest);
  }

  /** `canonical_case_projection`: nothing the caller holds is modified, and every event list of the result
      is new. */
  method CanonicalCaseProjection(norm: C.Norm, c: CaseDict) returns (r: CaseDict)
    ensures fresh(EventLists(r.event))
    ensures CaseOf(r) == C.Project(norm, CaseOf(c)) && C.SameCase(CaseOf(c), CaseOf(r))
    ensures r.event.required.Some? ==> r.event.required.value !in {r.event.steps, r.event.characteristics} + ListOf(r.event.links)
  {
    hide TotalPreorder, ByKey, Sort, EventOf, C.ProjectEvent, C.ProjectFields, C.SameCase;
    var event := ProjectEvent(norm, c.event);
    var documents := Sort(c.documents, ByKey(C.DocumentKey(norm)));
    ghost var sorted := documents;
    var k := 0;
    while k < |documents|
      invariant 0 <= k <= |documents| == |sorted|
      invariant forall j :: 0 <= j < |documents| ==> documents[j] == if j < k then C.ProjectDocument(norm)(sorted[j]) else sorted[j]
    {
      documents := documents[k := documents[k].(fields := C.ProjectFields(norm, documents[k].fields))];
      k := k + 1;
    }
    assert documents == Mapped(C.ProjectDocument(norm), sorted);
    r := CaseDict(event, documents, c.rest);
    C.ProjectionSame(norm, CaseOf(c));
  }

  // ---------- Uniqueness checks ----------

  /** The growing-set loop every uniqueness check of `validate_case` runs. */
  method AllDistinct<T(==)>(items: seq<T>, key: T -> seq<string>) returns (ok: bool)
    ensures ok <==> C.DistinctBy(items, key)
  {
    var seen: set<seq<string>> := {};
    var k := 0;
    while k < |items|
      invariant 0 <= k <= |items| && C.DistinctBy(items[..k], key)
      invariant forall x :: x in seen <==> exists i :: 0 <= i < k && key(items[i]) == x
    {
      if key(items[k]) in seen {
        return false;
      }
      seen := seen + {key(items[k])};
      k := k + 1;
    }
    assert items[..k] == items;
    return true;
  }

  method OptionDistinct(list: Option<seq<Json>>, key: Json -> seq<string>) returns (ok: bool)
    ensures ok <==> C.DistinctOption(list, key)
  {
    ok := true;
    if list.Some? {
      ok := AllDistinct(list.value, key);
    }
  }

  method ValidateEvent(norm: C.Norm, e: C.Event) returns (ok: bool)
    ensures ok <==> C.EventUnique(norm, e)
  {
    hide C.DistinctBy, C.DistinctOption, C.IdentityKey, C.LinkKey, C.EvidenceKey, C.ApprovalSubject;
    ok := AllDistinct(e.steps, C.IdentityKey(norm));
    if !ok { return; }
    ok := AllDistinct(e.characteristics, C.IdentityKey(norm));
    if !ok { return; }
    ok := OptionDistinct(e.links, C.LinkKey(norm));
    if !ok { return; }
    ok := OptionDistinct(e.required, C.EvidenceKey(norm));
    if !ok { return; }
    ok := OptionDistinct(e.evidence, C.EvidenceKey(norm));
    if !ok { return; }
    ok := OptionDistinct(e.approvals, C.ApprovalSubject());
  }

  method ValidateDocument(norm: C.Norm, d: C.Document) returns (ok: bool)
    ensures ok <==> C.FieldsUnique(norm, d.fields) && C.ControlsUnique(norm, d)
  {
    hide C.DistinctOption, C.IdentityKey, C.LinkKey, C.FailureKey, C.ControlKey, C.IsControlPlan;
    ok := OptionDistinct(d.fields.steps, C.IdentityKey(norm));
    if !ok { return; }
    ok := OptionDistinct(d.fields.characteristics, C.LinkKey(norm));
    if !ok { return; }
    if C.IsControlPlan(d) {
      ok := OptionDistinct(d.fields.characteristics, C.ControlKey(norm));
      if !ok { return; }
    }
    ok := OptionDistinct(d.fields.risks, C.FailureKey(norm));
  }

  /** The uniqueness checks of `validate_case` on a native Case. */
  method ValidateUniqueness(norm: C.Norm, c: C.Case) returns (ok: bool)
    ensures ok <==> C.Validated(norm, c)
  {
    hide C.EventUnique, C.FieldsUnique, C.ControlsUnique, C.DistinctBy, C.DocumentKey;
    ok := ValidateEvent(norm, c.event);
    if !ok { return; }
    ok := AllDistinct(c.documents, C.DocumentKey(norm));
    if !ok { return; }
    var k := 0;
    while k < |c.documents|
      invariant 0 <= k <= |c.documents|
      invariant forall i :: 0 <= i < k ==> C.FieldsUnique(norm, c.documents[i].fields) && C.ControlsUnique(norm, c.documents[i])
    {
      ok := ValidateDocument(norm, c.documents[k]);
      if !ok { return; }
      k := k + 1;
    }
    return true;
  }

  /** `canonical_hash` of a native Case: validated first, then projected, then printed and hashed. */
  method CanonicalHash(norm: C.Norm, digest: C.Case -> string, c: CaseDict) returns (r: Option<string>)
    ensures r.Some? <==> C.Validated(norm, CaseOf(c))
    ensures r.Some? ==> r.value == digest(C.Project(norm, CaseOf(c)))
  {
    hide C.Validated, C.Project;
    var ok := ValidateUniqueness(norm, CaseOf(c));
    if !ok {
      return None;
    }
    var projected := CanonicalCaseProjection(norm, c);
    r := Some(digest(CaseOf(projected)));
  }

  // ---------- The validation subject ----------

  /** `validation_case_subject_hash` up to the hash: the plan's list is sorted again in place, which is the
      copy the projection made, so the caller's Case is not modified here either. */
  method ValidationSubject(norm: C.Norm, casefold: C.Norm, c: CaseDict) returns (r: CaseDict)
    ensures CaseOf(r) == C.Subject(norm, casefold, CaseOf(c))
  {
    hide TotalPreorder, ByKey, Sort, C.ProjectEvent, C.SubjectKey, C.ProjectDocument, C.SameCase, C.Project;
    var p := CanonicalCaseProjection(norm, c);
    var e := p.event;
    if e.required.Some? {
      e.required.value.SortInPlace(C.SubjectKey(casefold));
    }
    r := CaseDict(e.(approvals := None, evidence := None, rest := e.rest - C.EVENT_DOWNSTREAM), p.documents, p.rest - C.CASE_DOWNSTREAM);
  }
}

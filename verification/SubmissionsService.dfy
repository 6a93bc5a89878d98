/** The submit call as a whole: what is checked in which order, what is stored, and repeated requests. */
module SubmissionsService {
  import opened JsText
  import opened JsValues
  import opened FormTree
  import opened Deployments
  import opened Submission
  import PublicRuntime

  /** A limit of 0 stands for no limit. */
  datatype Settings = Settings(accepting: bool, limit: nat)

  datatype Stored = Stored(id: string, form: string, versionId: string, data: Data)

  datatype Request = Request(form: string, settings: Settings, keys: seq<string>, data: Data, idempotencyKey: string)

  datatype Reply = Received(id: string) | Refused(reason: Reason)

  /** The stored submissions, and the replies remembered for repeated requests. */
  datatype State = State(stored: seq<Stored>, replies: map<string, string>)

  ghost predicate WellFormed(q: Request) {
    forall k :: k in q.keys <==> k in q.data
  }

  function CountOf(stored: seq<Stored>, form: string): nat {
    if stored == [] then 0
    else CountOf(stored[..|stored| - 1], form) + if stored[|stored| - 1].form == form then 1 else 0
  }

  function CacheKey(form: string, key: string): string {
    form + ":" + Trim(key)
  }

  function ElementsOf(c: Content): seq<Element> {
    if c.sections != [] then Flatten(c.sections) else c.elements
  }

  /** All the checks, in the order of the code. */
  function SubmitVerdict(js: Js, s: Store, stored: seq<Stored>, q: Request): Verdict
    requires forall k :: k in q.keys ==> k in q.data
  {
    if q.form !in s.forms then Rejected(NoForm)
    else if s.forms[q.form].liveId == "" then Rejected(NotDeployed)
    else if !q.settings.accepting then Rejected(Closed)
    else if q.settings.limit > 0 && CountOf(stored, q.form) >= q.settings.limit then Rejected(LimitReached)
    else if s.forms[q.form].liveId !in s.versions then Rejected(NoVersion)
    else BodyVerdict(js, ElementsOf(s.versions[s.forms[q.form].liveId].content), q.keys, q.data)
  }

  function NewStored(s: Store, q: Request, id: string): Stored
    requires q.form in s.forms && s.forms[q.form].liveId in s.versions
  {
    var live := s.forms[q.form].liveId;
    Stored(id, q.form, live, Canonical(ElementsOf(s.versions[live].content), q.data))
  }

  predicate Remembered(st: State, q: Request) {
    Trim(q.idempotencyKey) != "" && CacheKey(q.form, q.idempotencyKey) in st.replies
  }

  function ReplyTo(js: Js, s: Store, st: State, q: Request, id: string): Reply
    requires forall k :: k in q.keys ==> k in q.data
  {
    if Remembered(st, q) then Received(st.replies[CacheKey(q.form, q.idempotencyKey)])
    else match SubmitVerdict(js, s, st.stored, q)
      case Rejected(reason) => Refused(reason)
      case Accepted => Received(id)
  }

  function Submitted(js: Js, s: Store, st: State, q: Request, id: string): State
    requires forall k :: k in q.keys ==> k in q.data
  {
    if Remembered(st, q) || SubmitVerdict(js, s, st.stored, q).Rejected? then st
    else State(st.stored + [NewStored(s, q, id)],
               if Trim(q.idempotencyKey) == "" then st.replies
               else st.replies[CacheKey(q.form, q.idempotencyKey) := id])
  }

  /** The service; the forms and their versions belong to another one and only get read. */
  class Service {
    var stored: seq<Stored>
    var replies: map<string, string>

    constructor ()
      ensures stored == [] && replies == map[]
    {
      stored, replies := [], map[];
    }

    method CountDocuments(form: string) returns (n: nat)
      ensures n == CountOf(stored, form)
    {
      n := 0;
      for i := 0 to |stored|
        invariant n == CountOf(stored[..i], form)
      {
        assert stored[..i + 1][..i] == stored[..i];
        n := n + if stored[i].form == form then 1 else 0;
      }
      assert stored[..|stored|] == stored;
    }

    method Submit(js: Js, s: Store, q: Request, id: string) returns (reply: Reply)
      requires WellFormed(q)
      modifies this
      ensures reply == ReplyTo(js, s, old(State(stored, replies)), q, id)
      ensures State(stored, replies) == Submitted(js, s, old(State(stored, replies)), q, id)
    {
      var cacheKey := CacheKey(q.form, q.idempotencyKey);
      if Trim(q.idempotencyKey) != "" && cacheKey in replies {
        return Received(replies[cacheKey]);
      }
      if q.form !in s.forms {
        return Refused(NoForm);
      }
      var form := s.forms[q.form];
      if form.liveId == "" {
        return Refused(NotDeployed);
      }
      if !q.settings.accepting {
        return Refused(Closed);
      }
      if q.settings.limit > 0 {
        var existing := CountDocuments(q.form);
        if existing >= q.settings.limit {
          return Refused(LimitReached);
        }
      }
      if form.liveId !in s.versions {
        return Refused(NoVersion);
      }
      var limits := ValidateSubmissionPayload(q.keys, q.data);
      if limits.Rejected? {
        return Refused(limits.reason);
      }
      var elements := ElementsOf(s.versions[form.liveId].content);
      var verdict := ValidateFields(js, elements, q.data);
      if verdict.Rejected? {
        return Refused(verdict.reason);
      }
      var canonicalData := Canonicalize(elements, q.data);
      stored := stored + [Stored(id, q.form, form.liveId, canonicalData)];
      if Trim(q.idempotencyKey) != "" {
        replies := replies[cacheKey := id];
      }
      reply := Received(id);
    }
  }

  // ----- When a request is accepted -----

  /** The places of the form's submissions among those stored. */
  function Places(stored: seq<Stored>, form: string): set<nat> {
    set i: nat | i < |stored| && stored[i].form == form
  }

  lemma {:induction false} CountIsPlaces(stored: seq<Stored>, form: string)
    ensures CountOf(stored, form) == |Places(stored, form)|
  {
    if stored != [] {
      var n := |stored| - 1;
      CountIsPlaces(stored[..n], form);
      assert Places(stored, form) == Places(stored[..n], form) + if stored[n].form == form then {n} else {};
    }
  }

  /** The form is open: it is there, deployed, accepting, and below its limit, which 0 lifts. */
  predicate Open(s: Store, stored: seq<Stored>, q: Request) {
    && q.form in s.forms && s.forms[q.form].liveId != "" && s.forms[q.form].liveId in s.versions
    && q.settings.accepting && (q.settings.limit == 0 || |Places(stored, q.form)| < q.settings.limit)
  }

  predicate AllOk(js: Js, elements: seq<Element>, data: Data) {
    forall i :: 0 <= i < |elements| ==> FieldOk(js, elements[i], data)
  }

  /** The body is within the limits and valid field by field, on the elements of the version. */
  predicate Valid(js: Js, c: Content, q: Request)
    requires forall k :: k in q.keys ==> k in q.data
  {
    WithinLimits(q.keys, q.data) && AllOk(js, if c.sections != [] then Flatten(c.sections) else c.elements, q.data)
  }

  lemma ValidIff(js: Js, c: Content, q: Request)
    requires forall k :: k in q.keys ==> k in q.data
    ensures Valid(js, c, q) <==> BodyVerdict(js, ElementsOf(c), q.keys, q.data) == Accepted
  {
    hide FieldOk, WithinLimits, BodyVerdict, Flatten;
    BodyAcceptedIff(js, ElementsOf(c), q.keys, q.data);
    assert AllOk(js, ElementsOf(c), q.data) <==>
      forall i :: 0 <= i < |ElementsOf(c)| ==> FieldOk(js, ElementsOf(c)[i], q.data);
  }

  /**
   A request that is not a repeat is accepted exactly when the form is open and the body valid; then one record is
   added, of the live version, and the reply remembered under the key. Else it is refused and nothing changes.
   */
  lemma SubmitIff(js: Js, s: Store, st: State, q: Request, id: string)
    requires WellFormed(q) && !Remembered(st, q)
    ensures var accepted :=
        Open(s, st.stored, q) && Valid(js, s.versions[s.forms[q.form].liveId].content, q);
      var next := Submitted(js, s, st, q, id);
      && (accepted ==>
            && ReplyTo(js, s, st, q, id) == Received(id)
            && |next.stored| == |st.stored| + 1 && next.stored[..|st.stored|] == st.stored
            && next.stored[|st.stored|].id == id && next.stored[|st.stored|].form == q.form
            && next.stored[|st.stored|].versionId == s.forms[q.form].liveId
            && (Trim(q.idempotencyKey) == "" ==> next.replies == st.replies)
            && (Trim(q.idempotencyKey) != "" ==> Remembered(next, q)))
      && (!accepted ==> ReplyTo(js, s, st, q, id).Refused? && next == st)
  {
    CountIsPlaces(st.stored, q.form);
    hide FieldOk, KeysVerdict, FieldsVerdict, WithinLimits, Canonical, CountOf, Places, BodyVerdict, Flatten;
    if Open(s, st.stored, q) {
      var c := s.versions[s.forms[q.form].liveId].content;
      ValidIff(js, c, q);
      hide Valid;
      assert SubmitVerdict(js, s, st.stored, q) == BodyVerdict(js, ElementsOf(c), q.keys, q.data);
    } else {
      assert SubmitVerdict(js, s, st.stored, q).Rejected?;
    }
  }

  predicate NoColon(s: string) {
    forall i :: 0 <= i < |s| ==> s[i] != ':'
  }

  /** A reply is remembered for the form and the key of the request alone, up to white space around the key. */
  lemma RepliesOfOthers(js: Js, s: Store, st: State, q: Request, id: string, other: Request)
    requires WellFormed(q) && NoColon(q.form) && NoColon(other.form)
    requires Remembered(Submitted(js, s, st, q, id), other) && !Remembered(st, other)
    ensures other.form == q.form && Trim(other.idempotencyKey) == Trim(q.idempotencyKey)
  {
    hide SubmitVerdict, NewStored;
    SameParts(q.form, Trim(q.idempotencyKey), other.form, Trim(other.idempotencyKey));
  }

  lemma NoColonAt(s: string, i: nat)
    requires NoColon(s) && i < |s|
    ensures s[i] != ':'
  {
  }

  lemma SameParts(f: string, x: string, g: string, y: string)
    requires NoColon(f) && NoColon(g) && f + ":" + x == g + ":" + y
    ensures f == g && x == y
  {
    hide NoColon;
    var s := f + ":" + x;
    assert s[|f|] == ':' && s[|g|] == ':';
    if |f| < |g| {
      assert g[|f|] == s[|f|];
      NoColonAt(g, |f|);
    } else if |g| < |f| {
      assert f[|g|] == s[|g|];
      NoColonAt(f, |g|);
    }
    assert f == s[..|f|] && g == s[..|g|];
    assert x == s[|f| + 1..] && y == s[|g| + 1..];
  }

  // ----- Sequences of requests -----

  /** A request with the forms as they are when it is served, and the identifier that a new record would get. */
  datatype Served = Served(forms: Store, request: Request, id: string)

  ghost predicate AllWellFormed(calls: seq<Served>) {
    forall i :: 0 <= i < |calls| ==> WellFormed(calls[i].request)
  }

  /** The requests served one after another; in between, the forms may change in any way. */
  ghost function SubmittedAll(js: Js, st: State, calls: seq<Served>): State
    requires AllWellFormed(calls)
    decreases |calls|
  {
    if calls == [] then st
    else
      assert WellFormed(calls[0].request);
      SubmittedAll(js, Submitted(js, calls[0].forms, st, calls[0].request, calls[0].id), calls[1..])
  }

  lemma {:induction false} RepliesLast(js: Js, st: State, calls: seq<Served>, key: string)
    requires AllWellFormed(calls) && key in st.replies
    ensures var after := SubmittedAll(js, st, calls).replies; key in after && after[key] == st.replies[key]
    decreases |calls|
  {
    if calls != [] {
      assert WellFormed(calls[0].request);
      RepliesLast(js, Submitted(js, calls[0].forms, st, calls[0].request, calls[0].id), calls[1..], key);
    }
  }

  /**
   An accepted request that is repeated under its key, after any other requests and whatever the forms have
   become, gets the same reply and stores nothing.
   */
  lemma RepeatStoresOnce(js: Js, st: State, first: Served, between: seq<Served>, repeat: Served)
    requires WellFormed(first.request) && AllWellFormed(between) && WellFormed(repeat.request)
    requires Trim(first.request.idempotencyKey) != "" && repeat.request.form == first.request.form
    requires Trim(repeat.request.idempotencyKey) == Trim(first.request.idempotencyKey)
    requires ReplyTo(js, first.forms, st, first.request, first.id).Received?
    ensures var once := Submitted(js, first.forms, st, first.request, first.id);
      var later := SubmittedAll(js, once, between);
      && ReplyTo(js, repeat.forms, later, repeat.request, repeat.id) ==
          ReplyTo(js, first.forms, st, first.request, first.id)
      && Submitted(js, repeat.forms, later, repeat.request, repeat.id) == later
      && |once.stored| <= |st.stored| + 1
  {
    var key := CacheKey(first.request.form, first.request.idempotencyKey);
    RepliesLast(js, Submitted(js, first.forms, st, first.request, first.id), between, key);
  }

  /** The requests on the form find a limit, of at most `limit`. */
  ghost predicate Limited(calls: seq<Served>, form: string, limit: nat) {
    forall i :: 0 <= i < |calls| && calls[i].request.form == form ==> 0 < calls[i].request.settings.limit <= limit
  }

  lemma CountOfMore(stored: seq<Stored>, x: Stored, form: string)
    ensures CountOf(stored + [x], form) == CountOf(stored, form) + if x.form == form then 1 else 0
  {
    assert (stored + [x])[..|stored|] == stored;
  }

  /**
   Requests served one after another never take a form above its limit, as long as the limit is not raised or
   lifted.
   */
  lemma {:induction false} LimitHolds(js: Js, st: State, calls: seq<Served>, form: string, limit: nat)
    requires AllWellFormed(calls) && Limited(calls, form, limit) && CountOf(st.stored, form) <= limit
    ensures CountOf(SubmittedAll(js, st, calls).stored, form) <= limit
    decreases |calls|
  {
    if calls != [] {
      var c := calls[0];
      assert WellFormed(c.request);
      var after := Submitted(js, c.forms, st, c.request, c.id);
      if after.stored != st.stored {
        CountOfMore(st.stored, NewStored(c.forms, c.request, c.id), form);
      }
      assert forall i :: 0 <= i < |calls[1..]| ==> calls[1..][i] == calls[i + 1];
      LimitHolds(js, after, calls[1..], form, limit);
    }
  }

  /**
   From the deploy gate to storage, in every reachable state: an accepted submission to a version with
   sections is stored with exactly the resolved value of each field, and each field is valid.
   */
  lemma AcceptedSubmission(js: Js, s: Store, stored: seq<Stored>, q: Request, id: string)
    requires Reachable(s) && WellFormed(q) && SubmitVerdict(js, s, stored, q) == Accepted
    requires s.versions[s.forms[q.form].liveId].content.sections != []
    requires NoBlankKeys(Flatten(s.versions[s.forms[q.form].liveId].content.sections))
    ensures var elements := ElementsOf(s.versions[s.forms[q.form].liveId].content);
      var kept := NewStored(s, q, id).data;
      && s.versions[NewStored(s, q, id).versionId].form == q.form
      && (forall i :: 0 <= i < |elements| ==> FieldOk(js, elements[i], q.data))
      && (forall i :: 0 <= i < |elements| && IsDataField(elements[i].kind) ==>
            Look(kept, FieldKey(elements[i])) == RawValue(elements[i], q.data))
      && (forall key :: key in kept ==>
            exists i :: 0 <= i < |elements| && IsDataField(elements[i].kind) && FieldKey(elements[i]) == key)
  {
    var live := s.forms[q.form].liveId;
    var elements := ElementsOf(s.versions[live].content);
    PublicRuntime.DeployedKeysUnique(s, live);
    PublicRuntime.LivePointerAndHistory(s, q.form);
    GateMakesKeysDistinct(elements);
    DistinctKeysKept(elements, q.data);
    BodyAcceptedIff(js, elements, q.keys, q.data);
    forall i | 0 <= i < |elements|
      ensures FieldOk(js, elements[i], q.data)
      ensures IsDataField(elements[i].kind) ==>
        Look(NewStored(s, q, id).data, FieldKey(elements[i])) == RawValue(elements[i], q.data)
    {
      assert Kept(elements, elements[i], q.data);
    }
    forall key | key in NewStored(s, q, id).data
      ensures exists i :: 0 <= i < |elements| && IsDataField(elements[i].kind) && FieldKey(elements[i]) == key
    {
      CanonicalKeys(elements, q.data, key);
    }
  }
}

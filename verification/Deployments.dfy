/**
 Deployment of forms. A deploy request reads the form, allocates a version number against the unique
 index of the version collection, with up to three attempts, and then makes the version live. Any
 number of requests interleave between these database calls.
 */
module Deployments {
  import opened FormTree

  const MAX_ATTEMPTS: nat := 3

  datatype Content = Content(title: string, elements: seq<Element>, sections: seq<Section>, layout: string, css: string)

  /** `author` records the request that stored the version. */
  datatype Version = Version(form: string, number: nat, content: Content, updatedAt: nat, author: string)

  datatype Deployment = Deployment(versionId: string, versionNumber: nat, isCurrent: bool)

  /** `revision` is the document's version key: a save of a document read earlier fails when it has moved on. */
  datatype Form = Form(
    name: string,
    publicId: string,
    draft: Content,
    liveId: string,
    deployments: seq<Deployment>,
    revision: nat)

  datatype Slot = Slot(form: string, number: nat)

  /**
   A deploy request between two calls. `content` is the draft it read, `revision` that of the form it
   read, `seeded` the default draft that it gave the form in memory, if that had none, `begunAt` the number
   of versions the form had then, `latest` what the last read of the maximum gave.
   */
  datatype Request =
    | Reading(form: string, revision: nat, seeded: seq<Content>, content: Content, attempts: nat, begunAt: nat)
    | Inserting(form: string, revision: nat, seeded: seq<Content>, content: Content, attempts: nat, begunAt: nat,
        latest: nat)
    | Saving(form: string, revision: nat, seeded: seq<Content>, versionId: string)

  datatype Outcome = Deployed | Blocked | GaveUp(form: string, begunAt: nat, endedAt: nat) | SaveFailed

  /**
   `index` is the unique index over form and number. `count` and `started` are history: how many versions
   each form got, and the form of every request that was started.
   */
  datatype Store = Store(
    clock: nat,
    forms: map<string, Form>,
    versions: map<string, Version>,
    index: map<Slot, string>,
    requests: map<string, Request>,
    outcomes: map<string, Outcome>,
    count: map<string, nat>,
    started: map<string, string>)

  const NO_FORMS := Store(0, map[], map[], map[], map[], map[], map[], map[])

  datatype Action =
    | CreateForm(form: string, name: string, publicId: string, draft: Content)
    | EditDraft(form: string, draft: Content)
    | DuplicateVersion(form: string, versionId: string, css: string)
    | StartDeploy(req: string, form: string, seed: Content)
    | ReadLatest(req: string, latest: nat)
    | Insert(req: string, id: string)
    | Reactivate(req: string, form: string, versionId: string)
    | Save(req: string)

  /** The highest number stored for a form, 0 when there is none. */
  ghost predicate IsLatest(index: map<Slot, string>, form: string, latest: nat) {
    && (latest == 0 || Slot(form, latest) in index)
    && (forall k: nat :: Slot(form, k) in index ==> k <= latest)
  }

  /** Identifiers of the database are hexadecimal. */
  predicate IsObjectId(id: string) {
    id != "" && forall i :: 0 <= i < |id| ==> id[i] in "0123456789abcdef"
  }

  ghost predicate Enabled(s: Store, a: Action) {
    match a
    case CreateForm(form, _, _, _) => form !in s.forms
    case EditDraft(form, _) => form in s.forms
    case DuplicateVersion(form, id, _) => form in s.forms && id in s.versions && s.versions[id].form == form
    case StartDeploy(req, form, _) => req !in s.started && form in s.forms
    case ReadLatest(req, latest) => req in s.requests && s.requests[req].Reading?
        && IsLatest(s.index, s.requests[req].form, latest)
    case Insert(req, id) => req in s.requests && s.requests[req].Inserting? && id !in s.versions && IsObjectId(id)
    case Reactivate(req, form, id) => req !in s.started && form in s.forms && id in s.versions
        && s.versions[id].form == form
    case Save(req) => CanSave(s, req)
  }

  /** A request with a version to make live; form and version are always there, as `SaveIsPossible` shows. */
  predicate CanSave(s: Store, req: string) {
    req in s.requests && s.requests[req].Saving? && s.requests[req].form in s.forms
        && s.requests[req].versionId in s.versions
  }

  // ----- Calls -----

  /** The stored draft, or a default one when the form has none. */
  function EnsureDraft(form: Form, seed: Content): Content {
    if form.draft.title != "" then form.draft else seed.(title := form.name)
  }

  predicate GateOpen(draft: Content) {
    draft.sections == [] || DuplicateReferences(draft.sections) == []
  }

  /** What a version stores of a draft. */
  function Snapshot(draft: Content): Content {
    draft.(elements := if draft.sections != [] then Flatten(draft.sections) else draft.elements,
           layout := if draft.layout != "" then draft.layout else "column")
  }

  function Finish(s: Store, req: string, o: Outcome): Store {
    s.(requests := s.requests - {req}, outcomes := s.outcomes[req := o])
  }

  function Begin(s: Store, req: string, form: string, seed: Content): Store
    requires form in s.forms
  {
    var draft := EnsureDraft(s.forms[form], seed);
    var t := s.(started := s.started[req := form]);
    if !GateOpen(draft) then Finish(t, req, Blocked)
    else
      var seeded := if s.forms[form].draft.title != "" then [] else [draft];
      var q := Reading(form, s.forms[form].revision, seeded, Snapshot(draft), 0, Count(s, form));
      t.(requests := t.requests[req := q])
  }

  function Count(s: Store, form: string): nat {
    if form in s.count then s.count[form] else 0
  }

  /** The number is taken: the request reads again, or ends at its last attempt. */
  function Collide(s: Store, req: string): Store
    requires req in s.requests && s.requests[req].Inserting?
  {
    var q := s.requests[req];
    if q.attempts < MAX_ATTEMPTS then
      s.(requests := s.requests[req := Reading(q.form, q.revision, q.seeded, q.content, q.attempts, q.begunAt)])
    else Finish(s, req, GaveUp(q.form, q.begunAt, Count(s, q.form)))
  }

  function StoreVersion(s: Store, req: string, id: string): Store
    requires req in s.requests && s.requests[req].Inserting?
  {
    var q := s.requests[req];
    s.(versions := s.versions[id := Version(q.form, q.latest + 1, q.content, s.clock, req)],
       index := s.index[Slot(q.form, q.latest + 1) := id],
       count := s.count[q.form := Count(s, q.form) + 1],
       requests := s.requests[req := Saving(q.form, q.revision, q.seeded, id)])
  }

  /** The insert of latest + 1 under the unique index. */
  function TryInsert(s: Store, req: string, id: string): Store
    requires req in s.requests && s.requests[req].Inserting?
  {
    if Slot(s.requests[req].form, s.requests[req].latest + 1) in s.index then Collide(s, req)
    else StoreVersion(s, req, id)
  }

  function Retired(deployments: seq<Deployment>): seq<Deployment> {
    seq(|deployments|, i requires 0 <= i < |deployments| => deployments[i].(isCurrent := false))
  }

  function MakeLive(form: Form, id: string, number: nat): Form {
    form.(liveId := id, deployments := [Deployment(id, number, true)] + Retired(form.deployments),
        revision := form.revision + 1)
  }

  function WithDraft(form: Form, seeded: seq<Content>): Form {
    if seeded == [] then form else form.(draft := seeded[0])
  }

  function SaveForm(s: Store, req: string): Store
    requires CanSave(s, req)
  {
    var q := s.requests[req];
    var form := WithDraft(s.forms[q.form], q.seeded);
    if form.revision != q.revision then Finish(s, req, SaveFailed)
    else
      var live := MakeLive(form, q.versionId, s.versions[q.versionId].number);
      Finish(s.(forms := s.forms[q.form := live]), req, Deployed)
  }

  function Apply(s: Store, a: Action): Store
    requires a.EditDraft? || a.StartDeploy? || a.Reactivate? || a.DuplicateVersion? ==> a.form in s.forms
    requires a.DuplicateVersion? ==> a.versionId in s.versions
    requires a.ReadLatest? ==> a.req in s.requests && s.requests[a.req].Reading?
    requires a.Insert? ==> a.req in s.requests && s.requests[a.req].Inserting?
    requires a.Save? ==> CanSave(s, a.req)
  {
    match a
    case CreateForm(form, name, publicId, draft) => s.(forms := s.forms[form := Form(name, publicId, draft, "", [], 0)])
    case EditDraft(form, draft) => s.(forms := s.forms[form := s.forms[form].(draft := draft)])
    case DuplicateVersion(form, id, css) =>
      var copy := s.versions[id].content;
      s.(forms := s.forms[form := s.forms[form].(draft := copy.(title := copy.title + " (Copy)", css := css))])
    case StartDeploy(req, form, seed) => Begin(s, req, form, seed)
    case ReadLatest(req, latest) =>
      var q := s.requests[req];
      s.(requests := s.requests[req :=
        Inserting(q.form, q.revision, q.seeded, q.content, q.attempts + 1, q.begunAt, latest)])
    case Insert(req, id) => TryInsert(s, req, id)
    case Reactivate(req, form, id) =>
      s.(started := s.started[req := form], requests := s.requests[req := Saving(form, s.forms[form].revision, [], id)])
    case Save(req) => SaveForm(s, req)
  }

  function Step(s: Store, a: Action): Store
    requires a.EditDraft? || a.StartDeploy? || a.Reactivate? || a.DuplicateVersion? ==> a.form in s.forms
    requires a.DuplicateVersion? ==> a.versionId in s.versions
    requires a.ReadLatest? ==> a.req in s.requests && s.requests[a.req].Reading?
    requires a.Insert? ==> a.req in s.requests && s.requests[a.req].Inserting?
    requires a.Save? ==> CanSave(s, a.req)
  {
    Apply(s, a).(clock := s.clock + 1)
  }

  ghost predicate Leads(s: Store, run: seq<Action>, t: Store)
    decreases |run|
  {
    if run == [] then s == t
    else Enabled(s, run[0]) && Leads(Step(s, run[0]), run[1..], t)
  }

  ghost predicate Reachable(s: Store) {
    exists run :: Leads(NO_FORMS, run, s)
  }

  // ----- Invariants -----

  /** The numbers stored for each form are exactly 1 to its count. */
  ghost predicate Dense(index: map<Slot, string>, count: map<string, nat>) {
    forall slot :: slot in index <==> 1 <= slot.number <= (if slot.form in count then count[slot.form] else 0)
  }

  predicate Named(slot: Slot, id: string, versions: map<string, Version>) {
    id in versions && SlotOf(versions[id]) == slot
  }

  predicate Placed(id: string, v: Version, index: map<Slot, string>) {
    SlotOf(v) in index && index[SlotOf(v)] == id
  }

  /** Each slot of the index leads to its version, and each version is in the index. */
  ghost predicate Agree(index: map<Slot, string>, versions: map<string, Version>) {
    && (forall slot :: slot in index ==> Named(slot, index[slot], versions))
    && (forall id :: id in versions ==> Placed(id, versions[id], index))
  }

  ghost predicate NumbersOk(s: Store) {
    Dense(s.index, s.count) && Agree(s.index, s.versions)
  }

  function SlotOf(v: Version): Slot {
    Slot(v.form, v.number)
  }

  /** Every failed attempt stands for a version that another request stored since the deploy began. */
  predicate RequestOk(s: Store, req: string, q: Request) {
    && req in s.started && s.started[req] == q.form
    && match q
       case Reading(form, _, _, _, attempts, begunAt) => attempts < MAX_ATTEMPTS && begunAt + attempts <= Count(s, form)
       case Inserting(form, _, _, _, attempts, begunAt, latest) =>
         1 <= attempts <= MAX_ATTEMPTS && begunAt + attempts - 1 <= latest <= Count(s, form)
       case Saving(form, _, _, id) => id in s.versions && s.versions[id].form == form
  }

  /** A request stores one version at most, and none while it is still allocating. */
  ghost predicate AuthorsOk(s: Store) {
    && (forall id :: id in s.versions ==>
        s.versions[id].author in s.started && s.started[s.versions[id].author] == s.versions[id].form)
    && (forall id :: id in s.versions && s.versions[id].author in s.requests ==>
        s.requests[s.versions[id].author].Saving?)
    && (forall i, j | i in s.versions && j in s.versions :: s.versions[i].author == s.versions[j].author ==> i == j)
  }

  predicate OutcomeOk(s: Store, req: string, o: Outcome) {
    && req in s.started
    && (o.GaveUp? ==> o.begunAt + MAX_ATTEMPTS <= o.endedAt <= Count(s, o.form) && s.started[req] == o.form)
  }

  ghost predicate OutcomesOk(s: Store) {
    && (forall r :: r in s.outcomes ==> OutcomeOk(s, r, s.outcomes[r]) && r !in s.requests)
    && (forall id :: id in s.versions && s.versions[id].author in s.outcomes ==>
        !s.outcomes[s.versions[id].author].GaveUp?)
  }

  ghost predicate RequestsOk(s: Store) {
    forall r :: r in s.requests ==> RequestOk(s, r, s.requests[r])
  }

  ghost predicate VersionInv(s: Store) {
    NumbersOk(s) && RequestsOk(s) && AuthorsOk(s) && OutcomesOk(s)
  }

  /** A request that has stored no version. */
  predicate Unstored(s: Store, req: string) {
    || req !in s.started
    || (req in s.requests && !s.requests[req].Saving?)
    || (req in s.outcomes && s.outcomes[req].GaveUp?)
  }

  /** Requests and outcomes after a call that stores no version. */
  ghost predicate QuietRequests(s: Store, t: Store) {
    forall r :: r in t.requests ==> RequestOk(t, r, t.requests[r]) && (t.requests[r].Saving? || Unstored(s, r))
  }

  ghost predicate QuietOutcomes(s: Store, t: Store) {
    forall r :: r in t.outcomes ==>
      OutcomeOk(t, r, t.outcomes[r]) && r !in t.requests && (t.outcomes[r].GaveUp? ==> Unstored(s, r))
  }

  /** Calls that store no version. */
  lemma QuietKeeps(s: Store, t: Store)
    requires VersionInv(s) && t.versions == s.versions && t.index == s.index && t.count == s.count
    requires forall r :: r in s.started ==> r in t.started && t.started[r] == s.started[r]
    requires QuietRequests(s, t) && QuietOutcomes(s, t)
    ensures VersionInv(t)
  {
  }

  /** The condition on requests and outcomes for those that a call does not touch. */
  lemma OthersStay(s: Store, t: Store, req: string)
    requires RequestsOk(s) && OutcomesOk(s)
    requires forall r :: r in s.started ==> r in t.started && t.started[r] == s.started[r]
    requires forall id :: id in s.versions ==> id in t.versions && t.versions[id] == s.versions[id]
    requires forall f :: Count(s, f) <= Count(t, f)
    ensures forall r :: r in s.requests && r != req ==> RequestOk(t, r, s.requests[r])
    ensures forall r :: r in s.outcomes && r != req ==> OutcomeOk(t, r, s.outcomes[r])
  {
    forall r | r in s.requests && r != req
      ensures RequestOk(t, r, s.requests[r])
    {
      assert RequestOk(s, r, s.requests[r]);
    }
    forall r | r in s.outcomes && r != req
      ensures OutcomeOk(t, r, s.outcomes[r])
    {
      assert OutcomeOk(s, r, s.outcomes[r]);
    }
  }

  /** The request reads again, or it has its outcome. */
  predicate Settled(t: Store, req: string) {
    if req in t.requests then t.requests[req].Reading? && RequestOk(t, req, t.requests[req])
    else req in t.outcomes && OutcomeOk(t, req, t.outcomes[req])
  }

  /** A collision proves that the form has got one more version than the request had counted. */
  lemma CollidedOk(s: Store, req: string)
    requires NumbersOk(s) && RequestsOk(s) && req in s.requests && s.requests[req].Inserting?
    requires Slot(s.requests[req].form, s.requests[req].latest + 1) in s.index
    ensures Settled(Collide(s, req), req)
  {
    assert RequestOk(s, req, s.requests[req]);
  }

  lemma CollideKeeps(s: Store, req: string)
    requires VersionInv(s) && req in s.requests && s.requests[req].Inserting?
    requires Slot(s.requests[req].form, s.requests[req].latest + 1) in s.index
    ensures VersionInv(Collide(s, req))
  {
    var t := Collide(s, req);
    OthersStay(s, t, req);
    CollidedOk(s, req);
    hide RequestOk, OutcomeOk;
    CollidedQuiet(s, t, req);
    hide VersionInv, Collide, QuietRequests, QuietOutcomes;
    QuietKeeps(s, t);
  }

  lemma CollideShape(s: Store, req: string)
    requires req in s.requests && s.requests[req].Inserting?
    ensures var t := Collide(s, req);
      if s.requests[req].attempts < MAX_ATTEMPTS
      then req in t.requests && t == s.(requests := s.requests[req := t.requests[req]])
      else && req !in t.requests && req in t.outcomes
           && t == s.(requests := s.requests - {req}, outcomes := s.outcomes[req := t.outcomes[req]])
  {
  }

  lemma CollidedQuiet(s: Store, t: Store, req: string)
    requires OutcomesOk(s) && req in s.requests && s.requests[req].Inserting? && t == Collide(s, req)
    requires forall r :: r in s.requests && r != req ==> RequestOk(t, r, s.requests[r])
    requires forall r :: r in s.outcomes && r != req ==> OutcomeOk(t, r, s.outcomes[r])
    requires Settled(t, req)
    ensures t.versions == s.versions && t.index == s.index && t.count == s.count && t.started == s.started
    ensures QuietRequests(s, t) && QuietOutcomes(s, t)
  {
    CollideShape(s, req);
    hide RequestOk, OutcomeOk, OutcomesOk, QuietRequests, QuietOutcomes, Collide;
    if s.requests[req].attempts < MAX_ATTEMPTS {
      RetryQuiet(s, t, req);
    } else {
      QuitQuiet(s, t, req);
    }
  }

  lemma RetryQuiet(s: Store, t: Store, req: string)
    requires OutcomesOk(s) && req in s.requests && s.requests[req].Inserting?
    requires req in t.requests && t == s.(requests := s.requests[req := t.requests[req]])
    requires forall r :: r in s.requests && r != req ==> RequestOk(t, r, s.requests[r])
    requires forall r :: r in s.outcomes && r != req ==> OutcomeOk(t, r, s.outcomes[r])
    requires RequestOk(t, req, t.requests[req])
    ensures QuietRequests(s, t) && QuietOutcomes(s, t)
  {
    hide RequestOk, OutcomeOk;
  }

  lemma QuitQuiet(s: Store, t: Store, req: string)
    requires OutcomesOk(s) && req in s.requests && s.requests[req].Inserting?
    requires req in t.outcomes
    requires t == s.(requests := s.requests - {req}, outcomes := s.outcomes[req := t.outcomes[req]])
    requires forall r :: r in s.requests && r != req ==> RequestOk(t, r, s.requests[r])
    requires forall r :: r in s.outcomes && r != req ==> OutcomeOk(t, r, s.outcomes[r])
    requires OutcomeOk(t, req, t.outcomes[req])
    ensures QuietRequests(s, t) && QuietOutcomes(s, t)
  {
    hide RequestOk, OutcomeOk;
  }

  lemma LatestIsCount(s: Store, req: string)
    requires NumbersOk(s) && RequestsOk(s) && req in s.requests && s.requests[req].Inserting?
    requires Slot(s.requests[req].form, s.requests[req].latest + 1) !in s.index
    ensures s.requests[req].latest == Count(s, s.requests[req].form)
  {
    assert RequestOk(s, req, s.requests[req]);
  }

  /** A new version at the number after the count leaves index and versions in agreement, and the numbers dense. */
  lemma OneMoreNumber(index: map<Slot, string>, versions: map<string, Version>, count: map<string, nat>,
                      indexed: map<Slot, string>, stored: map<string, Version>, v: Version, id: string)
    requires Dense(index, count) && Agree(index, versions) && id !in versions
    requires v.number == (if v.form in count then count[v.form] else 0) + 1
    requires indexed == index[SlotOf(v) := id] && stored == versions[id := v]
    ensures Dense(indexed, count[v.form := v.number]) && Agree(indexed, stored)
  {
    forall slot | slot in indexed
      ensures Named(slot, indexed[slot], stored)
    {
      assert slot in index ==> Named(slot, index[slot], versions);
    }
    forall i | i in stored
      ensures Placed(i, stored[i], indexed)
    {
      assert i in versions ==> Placed(i, versions[i], index);
    }
  }

  lemma StoreNumbers(s: Store, req: string, id: string)
    requires VersionInv(s) && Enabled(s, Insert(req, id))
    requires Slot(s.requests[req].form, s.requests[req].latest + 1) !in s.index
    ensures s.requests[req].latest == Count(s, s.requests[req].form)
    ensures NumbersOk(StoreVersion(s, req, id))
  {
    LatestIsCount(s, req);
    hide RequestsOk, AuthorsOk, OutcomesOk, IsObjectId, Dense, Agree;
    var q := s.requests[req];
    var v, t := Version(q.form, q.latest + 1, q.content, s.clock, req), StoreVersion(s, req, id);
    OneMoreNumber(s.index, s.versions, s.count, t.index, t.versions, v, id);
  }

  lemma StoreRequests(s: Store, req: string, id: string)
    requires VersionInv(s) && Enabled(s, Insert(req, id))
    ensures RequestsOk(StoreVersion(s, req, id))
  {
    var t := StoreVersion(s, req, id);
    assert RequestOk(s, req, s.requests[req]);
    OthersStay(s, t, req);
    forall r | r in t.requests
      ensures RequestOk(t, r, t.requests[r])
    {
      assert r != req ==> t.requests[r] == s.requests[r];
    }
  }

  lemma StoreAuthors(s: Store, req: string, id: string)
    requires VersionInv(s) && Enabled(s, Insert(req, id))
    ensures AuthorsOk(StoreVersion(s, req, id))
  {
    assert RequestOk(s, req, s.requests[req]);
  }

  lemma StoreOutcomes(s: Store, req: string, id: string)
    requires VersionInv(s) && Enabled(s, Insert(req, id))
    ensures OutcomesOk(StoreVersion(s, req, id))
  {
    var t := StoreVersion(s, req, id);
    OthersStay(s, t, req);
    assert t.outcomes == s.outcomes && req !in s.outcomes;
  }

  /** A request that begins, whether it is blocked at the gate or goes on. */
  lemma BegunKeeps(s: Store, t: Store, req: string, form: string)
    requires VersionInv(s) && req !in s.started
    requires t == s.(started := s.started[req := form], requests := t.requests, outcomes := t.outcomes)
    requires (t.outcomes == s.outcomes && req in t.requests && t.requests == s.requests[req := t.requests[req]]
               && RequestOk(t, req, t.requests[req]))
      || (t.requests == s.requests - {req} && t.outcomes == s.outcomes[req := Blocked])
    ensures VersionInv(t)
  {
    OthersStay(s, t, req);
    assert req in s.requests ==> RequestOk(s, req, s.requests[req]);
    assert req in s.outcomes ==> OutcomeOk(s, req, s.outcomes[req]);
    QuietKeeps(s, t);
  }

  lemma BeginKeeps(s: Store, req: string, form: string, seed: Content)
    requires VersionInv(s) && Enabled(s, StartDeploy(req, form, seed))
    ensures VersionInv(Begin(s, req, form, seed))
  {
    hide GateOpen, Snapshot, EnsureDraft, VersionInv;
    BegunKeeps(s, Begin(s, req, form, seed), req, form);
  }

  lemma ReadKeeps(s: Store, req: string, latest: nat)
    requires VersionInv(s) && Enabled(s, ReadLatest(req, latest))
    ensures VersionInv(Apply(s, ReadLatest(req, latest)))
    ensures latest == Count(s, s.requests[req].form)
  {
    var t := Apply(s, ReadLatest(req, latest));
    var q := s.requests[req];
    assert RequestOk(s, req, q);
    if Count(s, q.form) > 0 {
      assert Slot(q.form, Count(s, q.form)) in s.index;
    }
    OthersStay(s, t, req);
    QuietKeeps(s, t);
  }

  lemma SaveKeeps(s: Store, req: string)
    requires VersionInv(s) && CanSave(s, req)
    ensures VersionInv(SaveForm(s, req))
  {
    var t := SaveForm(s, req);
    assert RequestOk(s, req, s.requests[req]);
    OthersStay(s, t, req);
    QuietKeeps(s, t);
  }

  lemma ReactivateKeeps(s: Store, req: string, form: string, id: string)
    requires VersionInv(s) && Enabled(s, Reactivate(req, form, id))
    ensures VersionInv(Apply(s, Reactivate(req, form, id)))
  {
    var t := Apply(s, Reactivate(req, form, id));
    assert req in s.outcomes ==> OutcomeOk(s, req, s.outcomes[req]);
    OthersStay(s, t, req);
    QuietKeeps(s, t);
  }

  lemma FormsKeep(s: Store, t: Store)
    requires VersionInv(s) && t == s.(forms := t.forms, clock := t.clock)
    ensures VersionInv(t)
  {
    OthersStay(s, t, "");
    if "" in s.requests {
      assert RequestOk(s, "", s.requests[""]);
    }
    if "" in s.outcomes {
      assert OutcomeOk(s, "", s.outcomes[""]);
    }
    QuietKeeps(s, t);
  }

  lemma ApplyKeeps(s: Store, a: Action)
    requires VersionInv(s) && Enabled(s, a)
    ensures VersionInv(Apply(s, a))
  {
    match a
    case Insert(req, id) =>
      if Slot(s.requests[req].form, s.requests[req].latest + 1) in s.index {
        CollideKeeps(s, req);
      } else {
        StoreNumbers(s, req, id);
        StoreRequests(s, req, id);
        StoreAuthors(s, req, id);
        StoreOutcomes(s, req, id);
      }
    case StartDeploy(req, form, seed) => BeginKeeps(s, req, form, seed);
    case ReadLatest(req, latest) => ReadKeeps(s, req, latest);
    case Save(req) => SaveKeeps(s, req);
    case Reactivate(req, form, id) => ReactivateKeeps(s, req, form, id);
    case CreateForm(_, _, _, _) => FormsKeep(s, Apply(s, a));
    case EditDraft(_, _) => FormsKeep(s, Apply(s, a));
    case DuplicateVersion(_, _, _) => FormsKeep(s, Apply(s, a));
  }

  lemma StepKeepsVersions(s: Store, a: Action)
    requires VersionInv(s) && Enabled(s, a)
    ensures VersionInv(Step(s, a))
  {
    ApplyKeeps(s, a);
    FormsKeep(Apply(s, a), Step(s, a));
  }

  lemma {:induction false} RunKeepsVersions(s: Store, run: seq<Action>, t: Store)
    requires VersionInv(s) && Leads(s, run, t)
    ensures VersionInv(t)
    decreases |run|
  {
    if run != [] {
      StepKeepsVersions(s, run[0]);
      RunKeepsVersions(Step(s, run[0]), run[1..], t);
    }
  }

  // ----- A request that has its version can always save -----

  ghost predicate FormsOk(s: Store) {
    forall r :: r in s.requests ==> s.requests[r].form in s.forms
  }

  lemma StepKeepsForms(s: Store, a: Action)
    requires FormsOk(s) && Enabled(s, a)
    ensures FormsOk(Step(s, a))
  {
    hide GateOpen, Snapshot, EnsureDraft, MakeLive, WithDraft, Count, IsLatest;
    match a
    case StartDeploy(req, form, seed) => BeginKeepsForms(s, req, form, seed);
    case Insert(req, id) => InsertKeepsForms(s, req, id);
    case Save(req) => SaveKeepsForms(s, req);
    case _ =>
  }

  lemma BeginKeepsForms(s: Store, req: string, form: string, seed: Content)
    requires FormsOk(s) && form in s.forms
    ensures FormsOk(Begin(s, req, form, seed))
  {
    hide GateOpen, Snapshot, EnsureDraft, Count;
  }

  lemma InsertKeepsForms(s: Store, req: string, id: string)
    requires FormsOk(s) && req in s.requests && s.requests[req].Inserting?
    ensures FormsOk(TryInsert(s, req, id))
  {
    hide Count;
  }

  lemma SaveKeepsForms(s: Store, req: string)
    requires FormsOk(s) && CanSave(s, req)
    ensures FormsOk(SaveForm(s, req))
  {
    hide MakeLive, WithDraft;
  }

  lemma {:induction false} RunKeepsForms(s: Store, run: seq<Action>, t: Store)
    requires FormsOk(s) && Leads(s, run, t)
    ensures FormsOk(t)
    decreases |run|
  {
    if run != [] {
      StepKeepsForms(s, run[0]);
      RunKeepsForms(Step(s, run[0]), run[1..], t);
    }
  }

  lemma SaveIsPossible(s: Store, req: string)
    requires Reachable(s) && req in s.requests && s.requests[req].Saving?
    ensures Enabled(s, Save(req))
  {
    ReachableVersions(s);
    assert RequestOk(s, req, s.requests[req]);
    var run :| Leads(NO_FORMS, run, s);
    RunKeepsForms(NO_FORMS, run, s);
  }

  lemma ReachableVersions(s: Store)
    requires Reachable(s)
    ensures VersionInv(s)
  {
    var run :| Leads(NO_FORMS, run, s);
    RunKeepsVersions(NO_FORMS, run, s);
  }
}

/** The public view of a deployed form, its entity tag, and the history of what was live. */
module PublicRuntime {
  import opened JsText
  import opened FormTree
  import opened Deployments
  import VersionAllocation

  // ----- Live pointer and history -----

  predicate EntryOk(d: Deployment, form: string, versions: map<string, Version>) {
    d.versionId in versions && versions[d.versionId].form == form && versions[d.versionId].number == d.versionNumber
  }

  /** The head of the history is the one current entry and names the live version; all entries exist. */
  ghost predicate HistoryOk(form: string, f: Form, versions: map<string, Version>) {
    && (f.deployments == [] <==> f.liveId == "")
    && (forall i :: 0 <= i < |f.deployments| ==> EntryOk(f.deployments[i], form, versions))
    && (forall i :: 0 <= i < |f.deployments| ==> (f.deployments[i].isCurrent <==> i == 0))
    && (f.deployments != [] ==> f.deployments[0].versionId == f.liveId)
  }

  /** Whatever was taken from a draft passed the gate, and lists its elements. */
  predicate ContentOk(c: Content) {
    c.sections != [] ==> DuplicateReferences(c.sections) == [] && c.elements == Flatten(c.sections)
  }

  ghost predicate RuntimeInv(s: Store) {
    && (forall f :: f in s.forms ==> HistoryOk(f, s.forms[f], s.versions))
    && (forall id :: id in s.versions ==> IsObjectId(id) && ContentOk(s.versions[id].content))
    && (forall r :: r in s.requests && !s.requests[r].Saving? ==> ContentOk(s.requests[r].content))
  }

  lemma SnapshotOk(draft: Content)
    requires GateOpen(draft)
    ensures ContentOk(Snapshot(draft))
  {
  }

  lemma MakeLiveOk(form: string, f: Form, id: string, versions: map<string, Version>)
    requires HistoryOk(form, f, versions) && id in versions && versions[id].form == form && id != ""
    ensures HistoryOk(form, MakeLive(f, id, versions[id].number), versions)
  {
    var g := MakeLive(f, id, versions[id].number);
    forall i | 0 <= i < |g.deployments|
      ensures EntryOk(g.deployments[i], form, versions) && (g.deployments[i].isCurrent <==> i == 0)
    {
      if i > 0 {
        assert g.deployments[i] == f.deployments[i - 1].(isCurrent := false);
        assert EntryOk(f.deployments[i - 1], form, versions);
      }
    }
  }

  lemma MoreVersionsOk(form: string, f: Form, before: map<string, Version>, after: map<string, Version>)
    requires HistoryOk(form, f, before)
    requires forall id :: id in before ==> id in after && after[id] == before[id]
    ensures HistoryOk(form, f, after)
  {
    forall i | 0 <= i < |f.deployments|
      ensures EntryOk(f.deployments[i], form, after)
    {
      assert EntryOk(f.deployments[i], form, before);
    }
  }

  lemma StoreKeepsRuntime(s: Store, req: string, id: string)
    requires RuntimeInv(s) && Enabled(s, Insert(req, id))
    ensures RuntimeInv(StoreVersion(s, req, id))
  {
    hide HistoryOk, ContentOk;
    var t := StoreVersion(s, req, id);
    forall f | f in t.forms
      ensures HistoryOk(f, t.forms[f], t.versions)
    {
      MoreVersionsOk(f, s.forms[f], s.versions, t.versions);
    }
  }

  lemma BeginKeepsRuntime(s: Store, req: string, form: string, seed: Content)
    requires RuntimeInv(s) && form in s.forms
    ensures RuntimeInv(Begin(s, req, form, seed))
  {
    hide HistoryOk, ContentOk, GateOpen, Snapshot, EnsureDraft;
    var draft := EnsureDraft(s.forms[form], seed);
    if GateOpen(draft) {
      SnapshotOk(draft);
    }
  }

  lemma SaveKeepsRuntime(s: Store, req: string)
    requires RuntimeInv(s) && RequestsOk(s) && CanSave(s, req)
    ensures RuntimeInv(SaveForm(s, req))
  {
    hide HistoryOk, ContentOk, MakeLive;
    var q := s.requests[req];
    assert RequestOk(s, req, q);
    var form := s.forms[q.form];
    if q.seeded != [] {
      DraftKeepsHistory(q.form, form, q.seeded[0], s.versions);
    }
    MakeLiveOk(q.form, WithDraft(form, q.seeded), q.versionId, s.versions);
  }

  lemma DraftKeepsHistory(form: string, f: Form, draft: Content, versions: map<string, Version>)
    requires HistoryOk(form, f, versions)
    ensures HistoryOk(form, f.(draft := draft), versions)
  {
  }

  lemma DraftKeepsRuntime(s: Store, form: string, draft: Content)
    requires RuntimeInv(s) && form in s.forms
    ensures RuntimeInv(s.(forms := s.forms[form := s.forms[form].(draft := draft)]))
  {
    hide HistoryOk, ContentOk;
    DraftKeepsHistory(form, s.forms[form], draft, s.versions);
  }

  lemma RequestKeepsRuntime(s: Store, t: Store)
    requires RuntimeInv(s) && t.forms == s.forms && t.versions == s.versions
    requires forall r :: r in t.requests && !t.requests[r].Saving? ==>
      r in s.requests && !s.requests[r].Saving? && t.requests[r].content == s.requests[r].content
    ensures RuntimeInv(t)
  {
  }

  lemma NewFormKeepsRuntime(s: Store, form: string, f: Form)
    requires RuntimeInv(s) && f.liveId == "" && f.deployments == []
    ensures RuntimeInv(s.(forms := s.forms[form := f]))
  {
  }

  lemma ApplyKeepsRuntime(s: Store, a: Action)
    requires VersionInv(s) && RuntimeInv(s) && Enabled(s, a)
    ensures RuntimeInv(Apply(s, a))
  {
    hide VersionInv, RuntimeInv, Begin, SaveForm, StoreVersion, Collide;
    match a
    case Insert(req, id) =>
      if Slot(s.requests[req].form, s.requests[req].latest + 1) in s.index {
        CollideKeepsRuntime(s, req);
      } else {
        StoreKeepsRuntime(s, req, id);
      }
    case StartDeploy(req, form, seed) => BeginKeepsRuntime(s, req, form, seed);
    case Save(req) => RequestsOfInv(s); SaveKeepsRuntime(s, req);
    case EditDraft(form, draft) => DraftKeepsRuntime(s, form, draft);
    case DuplicateVersion(form, id, css) =>
      var copy := s.versions[id].content;
      DraftKeepsRuntime(s, form, copy.(title := copy.title + " (Copy)", css := css));
    case CreateForm(form, name, publicId, draft) =>
      NewFormKeepsRuntime(s, form, Form(name, publicId, draft, "", [], 0));
    case ReadLatest(_, _) => RequestKeepsRuntime(s, Apply(s, a));
    case Reactivate(_, _, _) => RequestKeepsRuntime(s, Apply(s, a));
  }

  lemma RequestsOfInv(s: Store)
    requires VersionInv(s)
    ensures RequestsOk(s)
  {
  }

  lemma CollideKeepsRuntime(s: Store, req: string)
    requires RuntimeInv(s) && req in s.requests && s.requests[req].Inserting?
    ensures RuntimeInv(Collide(s, req))
  {
    hide RuntimeInv;
    RequestKeepsRuntime(s, Collide(s, req));
  }

  lemma {:induction false} RunKeepsRuntime(s: Store, run: seq<Action>, t: Store)
    requires VersionInv(s) && RuntimeInv(s) && Leads(s, run, t)
    ensures RuntimeInv(t)
    decreases |run|
  {
    if run != [] {
      hide VersionInv, RuntimeInv, Apply;
      StepKeepsVersions(s, run[0]);
      ApplyKeepsRuntime(s, run[0]);
      RequestKeepsRuntime(Apply(s, run[0]), Step(s, run[0]));
      RunKeepsRuntime(Step(s, run[0]), run[1..], t);
    }
  }

  lemma ReachableRuntime(s: Store)
    requires Reachable(s)
    ensures VersionInv(s) && RuntimeInv(s)
  {
    var run :| Leads(NO_FORMS, run, s);
    RunKeepsVersions(NO_FORMS, run, s);
    RunKeepsRuntime(NO_FORMS, run, s);
  }

  /** In every reachable state, for every form. */
  lemma LivePointerAndHistory(s: Store, form: string)
    requires Reachable(s) && form in s.forms
    ensures HistoryOk(form, s.forms[form], s.versions)
    ensures s.forms[form].liveId != "" ==>
      s.forms[form].liveId in s.versions && s.versions[s.forms[form].liveId].form == form
  {
    ReachableRuntime(s);
    var f := s.forms[form];
    if f.liveId != "" {
      assert EntryOk(f.deployments[0], form, s.versions);
    }
  }

  /** Every stored version passed the gate: no field key of its sections occurs twice. */
  lemma DeployedKeysUnique(s: Store, id: string)
    requires Reachable(s) && id in s.versions && s.versions[id].content.sections != []
    ensures forall key :: !Repeated(Flatten(s.versions[id].content.sections), key)
    ensures s.versions[id].content.elements == Flatten(s.versions[id].content.sections)
  {
    ReachableRuntime(s);
    assert ContentOk(s.versions[id].content);
    ScanIsExact(Flatten(s.versions[id].content.sections));
  }

  // ----- The public view -----

  datatype Body = Body(publicId: string, name: string, content: Content, isDeployed: bool, updatedAt: nat)

  datatype View = NotDeployed(name: string) | Live(body: Body, etag: string)

  /** The text that is hashed into the entity tag; the hash is taken to be injective. */
  function ETag(id: string, v: Version): string {
    id + "-v" + Decimal(v.number) + "-" + Decimal(v.updatedAt)
  }

  function GetPublicForm(s: Store, form: string): View
    requires form in s.forms
  {
    var f := s.forms[form];
    if f.liveId == "" || f.liveId !in s.versions then NotDeployed(f.name)
    else
      var v := s.versions[f.liveId];
      Live(Body(f.publicId, f.name, v.content, true, v.updatedAt), ETag(f.liveId, v))
  }

  lemma NoDashInId(id: string, i: nat)
    requires IsObjectId(id) && i < |id|
    ensures id[i] != '-'
  {
    assert id[i] in "0123456789abcdef";
  }

  /** A tag names one version: its identifier can be read off. */
  lemma TagNamesVersion(i: string, v: Version, j: string, w: Version)
    requires IsObjectId(i) && IsObjectId(j) && ETag(i, v) == ETag(j, w)
    ensures i == j
  {
    var s := ETag(i, v);
    assert s[|i|] == '-' && s[|j|] == '-';
    if |i| < |j| {
      assert j[|i|] == s[|i|];
      NoDashInId(j, |i|);
    } else if |j| < |i| {
      assert i[|j|] == s[|j|];
      NoDashInId(i, |j|);
    }
    assert i == s[..|i|] && j == s[..|j|];
  }

  // ----- From one state to a later one -----

  /** Forms keep their names and public ids. */
  ghost predicate NamesKept(s: Store, t: Store) {
    forall f :: f in s.forms ==>
      f in t.forms && t.forms[f].name == s.forms[f].name && t.forms[f].publicId == s.forms[f].publicId
  }

  lemma StepKeepsNames(s: Store, a: Action)
    requires Enabled(s, a)
    ensures NamesKept(s, Step(s, a))
  {
    hide Begin, TryInsert;
    match a
    case StartDeploy(req, form, seed) => FormsOfBegin(s, req, form, seed);
    case Insert(req, id) => FormsOfInsert(s, req, id);
    case _ =>
  }

  lemma FormsOfBegin(s: Store, req: string, form: string, seed: Content)
    requires form in s.forms
    ensures Begin(s, req, form, seed).forms == s.forms && Begin(s, req, form, seed).versions == s.versions
  {
    hide GateOpen, Snapshot, EnsureDraft, Count;
  }

  lemma FormsOfInsert(s: Store, req: string, id: string)
    requires req in s.requests && s.requests[req].Inserting?
    ensures TryInsert(s, req, id).forms == s.forms
  {
  }

  lemma {:induction false} RunKeepsNames(s: Store, run: seq<Action>, t: Store)
    requires Leads(s, run, t)
    ensures NamesKept(s, t)
    decreases |run|
  {
    if run != [] {
      hide Step;
      StepKeepsNames(s, run[0]);
      RunKeepsNames(Step(s, run[0]), run[1..], t);
    }
  }

  /** While the same version is live, body and tag are the same, whatever happened between. */
  lemma SameLiveSameView(s: Store, run: seq<Action>, t: Store, form: string)
    requires Reachable(s) && Leads(s, run, t) && form in s.forms && s.forms[form].liveId != ""
    requires form in t.forms && t.forms[form].liveId == s.forms[form].liveId
    ensures GetPublicForm(t, form) == GetPublicForm(s, form) && GetPublicForm(s, form).Live?
  {
    RunKeepsNames(s, run, t);
    VersionAllocation.VersionsNeverChange(s, run, t);
    LivePointerAndHistory(s, form);
  }

  /** The call makes some version of `form` live. */
  predicate Publishes(s: Store, a: Action, form: string) {
    a.Save? && a.req in s.requests && s.requests[a.req].form == form
  }

  lemma OnlySavesPublish(s: Store, a: Action, form: string)
    requires Enabled(s, a) && form in s.forms && !Publishes(s, a, form)
    ensures form in Step(s, a).forms && Step(s, a).forms[form].liveId == s.forms[form].liveId
  {
    hide Begin, TryInsert;
    match a
    case StartDeploy(req, g, seed) => FormsOfBegin(s, req, g, seed);
    case Insert(req, id) => FormsOfInsert(s, req, id);
    case _ =>
  }

  ghost predicate NeverPublishes(s: Store, run: seq<Action>, form: string)
    decreases |run|
  {
    run == [] || (Enabled(s, run[0]) && !Publishes(s, run[0], form) && NeverPublishes(Step(s, run[0]), run[1..], form))
  }

  lemma {:induction false} QuietRunKeepsLive(s: Store, run: seq<Action>, t: Store, form: string)
    requires Leads(s, run, t) && form in s.forms && NeverPublishes(s, run, form)
    ensures form in t.forms && t.forms[form].liveId == s.forms[form].liveId
    decreases |run|
  {
    if run != [] {
      hide Step;
      OnlySavesPublish(s, run[0], form);
      QuietRunKeepsLive(Step(s, run[0]), run[1..], t, form);
    }
  }

  /**
   Draft edits, copies of versions into the draft, deploys of other forms, and everything a deploy of this
   form does before its save, leave the public view of a deployed form as it is.
   */
  lemma DraftsDoNotShow(s: Store, run: seq<Action>, t: Store, form: string)
    requires Reachable(s) && Leads(s, run, t) && form in s.forms && s.forms[form].liveId != ""
    requires NeverPublishes(s, run, form)
    ensures form in t.forms && GetPublicForm(t, form) == GetPublicForm(s, form)
  {
    QuietRunKeepsLive(s, run, t, form);
    SameLiveSameView(s, run, t, form);
  }

  /** A request keeps its version until it saves, and does not come back after that. */
  ghost predicate Holding(s: Store, req: string, q: Request) {
    req in s.started && (req in s.requests ==> s.requests[req] == q)
  }

  lemma StepHolds(s: Store, a: Action, req: string, q: Request)
    requires Enabled(s, a) && Holding(s, req, q) && q.Saving?
    ensures Holding(Step(s, a), req, q)
  {
    hide GateOpen, Snapshot, EnsureDraft, MakeLive, WithDraft, Count, IsLatest;
    match a
    case StartDeploy(r, form, seed) => BeginHolds(s, r, form, seed, req, q);
    case Insert(r, id) => InsertHolds(s, r, id, req, q);
    case _ =>
  }

  lemma BeginHolds(s: Store, r: string, form: string, seed: Content, req: string, q: Request)
    requires form in s.forms && r !in s.started && Holding(s, req, q)
    ensures Holding(Begin(s, r, form, seed), req, q)
  {
    hide GateOpen, Snapshot, EnsureDraft, Count;
  }

  lemma InsertHolds(s: Store, r: string, id: string, req: string, q: Request)
    requires r in s.requests && s.requests[r].Inserting? && Holding(s, req, q) && q.Saving?
    ensures Holding(TryInsert(s, r, id), req, q)
  {
    hide Count;
  }

  lemma {:induction false} RunHolds(s: Store, run: seq<Action>, t: Store, req: string, q: Request)
    requires Leads(s, run, t) && Holding(s, req, q) && q.Saving?
    ensures Holding(t, req, q)
    decreases |run|
  {
    if run != [] {
      hide Step, Enabled, Holding;
      StepHolds(s, run[0], req, q);
      RunHolds(Step(s, run[0]), run[1..], t, req, q);
    }
  }

  /**
   Re-activating a version that was live before, whatever comes between its read and its save: the save
   restores exactly what was served then, tag included, or it fails and leaves the public view as it is;
   it fails exactly when the document was saved in between.
   */
  lemma ReactivationRestores(s: Store, run: seq<Action>, t: Store, between: seq<Action>, u: Store, form: string,
      req: string)
    requires Reachable(s) && Leads(s, run, t) && form in s.forms && s.forms[form].liveId != ""
    requires form in t.forms && Enabled(t, Reactivate(req, form, s.forms[form].liveId))
    requires Leads(Step(t, Reactivate(req, form, s.forms[form].liveId)), between, u) && req in u.requests
    ensures Enabled(u, Save(req)) && form in u.forms
    ensures var w := Step(u, Save(req));
      && form in w.forms && req in w.outcomes
      && (w.outcomes[req] == Deployed <==> u.forms[form].revision == t.forms[form].revision)
      && GetPublicForm(w, form) == GetPublicForm(if w.outcomes[req] == Deployed then s else u, form)
  {
    LivePointerAndHistory(s, form);
    Reactivated(s, run, t, between, u, form, req);
    hide Leads, Reachable, HistoryOk, Step;
    SavedView(u, req, u.requests[req]);
  }

  /** At the save, the request still has the version, and the version is still the one that was live. */
  lemma Reactivated(s: Store, run: seq<Action>, t: Store, between: seq<Action>, u: Store, form: string, req: string)
    requires Reachable(s) && Leads(s, run, t) && form in s.forms && s.forms[form].liveId in s.versions
    requires form in t.forms && Enabled(t, Reactivate(req, form, s.forms[form].liveId))
    requires Leads(Step(t, Reactivate(req, form, s.forms[form].liveId)), between, u) && req in u.requests
    ensures u.requests[req] == Saving(form, t.forms[form].revision, [], s.forms[form].liveId)
    ensures Enabled(u, Save(req)) && NamesKept(s, u) && VersionAllocation.VersionsKept(s, u)
  {
    hide NamesKept, Enabled;
    var a := Reactivate(req, form, s.forms[form].liveId);
    var q := Saving(form, t.forms[form].revision, [], s.forms[form].liveId);
    assert ([a] + between)[1..] == between;
    assert Holding(Step(t, a), req, q);
    hide Step;
    RunHolds(Step(t, a), between, u, req, q);
    VersionAllocation.LeadsThrough(s, run, t, [a] + between, u);
    VersionAllocation.RunReachable(s, run + ([a] + between), u);
    hide Leads;
    SaveIsPossible(u, req);
    RunKeepsNames(s, run + ([a] + between), u);
    VersionAllocation.VersionsNeverChange(s, run + ([a] + between), u);
  }

  lemma SavedView(u: Store, req: string, q: Request)
    requires CanSave(u, req) && u.requests[req] == q && q.seeded == []
    ensures var w := Step(u, Save(req));
      && q.form in w.forms && req in w.outcomes && w.versions == u.versions
      && (w.outcomes[req] == Deployed <==> u.forms[q.form].revision == q.revision)
      && (w.outcomes[req] != Deployed ==> w.forms == u.forms)
      && (w.outcomes[req] == Deployed ==>
            && w.forms[q.form].liveId == q.versionId
            && w.forms[q.form].name == u.forms[q.form].name && w.forms[q.form].publicId == u.forms[q.form].publicId)
  {
  }

  /**
   Over a whole run, equal tags mean equal bodies, the requirement on a strong validator in section 8.8.1
   of RFC 9110, and the tag changes exactly when the live version does.
   */
  lemma TagIsStrongValidator(s: Store, run: seq<Action>, t: Store, form: string, other: string)
    requires Reachable(s) && Leads(s, run, t) && form in s.forms && other in t.forms
    requires GetPublicForm(s, form).Live? && GetPublicForm(t, other).Live?
    ensures GetPublicForm(s, form).etag == GetPublicForm(t, other).etag
       <==> s.forms[form].liveId == t.forms[other].liveId
    ensures GetPublicForm(s, form).etag == GetPublicForm(t, other).etag ==>
      form == other && GetPublicForm(s, form).body == GetPublicForm(t, other).body
  {
    VersionAllocation.RunReachable(s, run, t);
    ReachableRuntime(s);
    ReachableRuntime(t);
    LivePointerAndHistory(s, form);
    LivePointerAndHistory(t, other);
    VersionAllocation.VersionsNeverChange(s, run, t);
    RunKeepsNames(s, run, t);
    var i, j := s.forms[form].liveId, t.forms[other].liveId;
    if GetPublicForm(s, form).etag == GetPublicForm(t, other).etag {
      TagNamesVersion(i, s.versions[i], j, t.versions[j]);
    }
  }
}

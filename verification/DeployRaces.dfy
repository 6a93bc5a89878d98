/** What a deploy makes live, and which of several deploys of one form that does. */
module DeployRaces {
  import opened FormTree
  import opened Deployments
  import PublicRuntime
  import VersionAllocation

  // ----- From the begin of a deploy to its save -----

  /**
   The request has read the form at `revision`, and given it the default draft `seeded` if it had none; it carries
   `content`, or has stored it as its version.
   */
  predicate Carries(s: Store, req: string, form: string, revision: nat, seeded: seq<Content>, content: Content) {
    req in s.started &&
    (req in s.requests ==>
       var q := s.requests[req];
       && q.form == form && q.revision == revision && q.seeded == seeded
       && if q.Saving? then q.versionId in s.versions && s.versions[q.versionId].content == content
          else q.content == content)
  }

  lemma StepCarries(s: Store, a: Action, req: string, form: string, revision: nat, seeded: seq<Content>,
      content: Content)
    requires Enabled(s, a) && Carries(s, req, form, revision, seeded, content)
    ensures Carries(Step(s, a), req, form, revision, seeded, content)
  {
    hide GateOpen, Snapshot, EnsureDraft, MakeLive, WithDraft, Count, IsLatest, IsObjectId;
    match a
    case StartDeploy(r, g, seed) => BeginCarries(s, r, g, seed, req, form, revision, seeded, content);
    case Insert(r, id) => InsertCarries(s, r, id, req, form, revision, seeded, content);
    case _ =>
  }

  lemma BeginCarries(s: Store, r: string, g: string, seed: Content, req: string, form: string, revision: nat,
      seeded: seq<Content>, content: Content)
    requires g in s.forms && r !in s.started && Carries(s, req, form, revision, seeded, content)
    ensures Carries(Begin(s, r, g, seed), req, form, revision, seeded, content)
  {
    hide GateOpen, Snapshot, EnsureDraft, Count;
  }

  lemma InsertCarries(s: Store, r: string, id: string, req: string, form: string, revision: nat,
      seeded: seq<Content>, content: Content)
    requires r in s.requests && s.requests[r].Inserting? && id !in s.versions
    requires Carries(s, req, form, revision, seeded, content)
    ensures Carries(TryInsert(s, r, id), req, form, revision, seeded, content)
  {
    hide Count;
  }

  lemma {:induction false} RunCarries(s: Store, run: seq<Action>, t: Store, req: string, form: string,
      revision: nat, seeded: seq<Content>, content: Content)
    requires Leads(s, run, t) && Carries(s, req, form, revision, seeded, content)
    ensures Carries(t, req, form, revision, seeded, content)
    decreases |run|
  {
    if run != [] {
      hide Step, Enabled, Carries;
      StepCarries(s, run[0], req, form, revision, seeded, content);
      RunCarries(Step(s, run[0]), run[1..], t, req, form, revision, seeded, content);
    }
  }

  /** What a version holds of the draft that it was made from. */
  predicate TakenFrom(content: Content, draft: Content) {
    && content.title == draft.title && content.sections == draft.sections && content.css == draft.css
    && content.elements == (if draft.sections != [] then Flatten(draft.sections) else draft.elements)
    && content.layout == (if draft.layout != "" then draft.layout else "column")
  }

  /** The version goes live at the head of the history; all that was there stays, and is no longer current. */
  predicate PutLive(before: Form, after: Form, id: string, number: nat) {
    && after.name == before.name && after.publicId == before.publicId && after.liveId == id
    && |after.deployments| == |before.deployments| + 1 && after.deployments[0] == Deployment(id, number, true)
    && forall i :: 0 <= i < |before.deployments| ==>
      after.deployments[i + 1] == before.deployments[i].(isCurrent := false)
  }

  /** What a save does: the version goes live, and the default draft is stored, or nothing changes. */
  predicate SavedForm(t: Store, w: Store, form: string, id: string, seeded: seq<Content>) {
    && form in t.forms && w.forms.Keys == t.forms.Keys && w.versions == t.versions && id in w.versions
    && (forall f :: f in t.forms && f != form ==> w.forms[f] == t.forms[f])
    && PutLive(t.forms[form], w.forms[form], id, w.versions[id].number)
    && w.forms[form].draft == if seeded == [] then t.forms[form].draft else seeded[0]
  }

  lemma Saved(t: Store, req: string, q: Request)
    requires CanSave(t, req) && t.requests[req] == q
    ensures var w := Step(t, Save(req));
      && q.form in w.forms && req in w.outcomes && w.versions == t.versions
      && w.outcomes[req] == (if t.forms[q.form].revision == q.revision then Deployed else SaveFailed)
      && (w.outcomes[req] == SaveFailed ==> w.forms == t.forms)
      && (w.outcomes[req] == Deployed ==> SavedForm(t, w, q.form, q.versionId, q.seeded))
  {
    var form := WithDraft(t.forms[q.form], q.seeded);
    assert form == t.forms[q.form].(draft := if q.seeded == [] then t.forms[q.form].draft else q.seeded[0]);
    hide WithDraft, PutLive;
    Live(t.forms[q.form], form.draft, q.versionId, t.versions[q.versionId].number);
  }

  lemma Live(f: Form, draft: Content, id: string, number: nat)
    ensures PutLive(f, MakeLive(f.(draft := draft), id, number), id, number)
  {
  }

  /** Some key is that of two data fields of the sections. */
  ghost predicate SharesKey(sections: seq<Section>) {
    exists key :: Repeated(Flatten(sections), key)
  }

  lemma GateIff(draft: Content)
    ensures GateOpen(draft) <==> !SharesKey(draft.sections)
  {
    var duplicates := ScanKeys(Flatten(draft.sections)).duplicates;
    ScanIsExact(Flatten(draft.sections));
    if draft.sections == [] {
      assert Flatten(draft.sections) == [];
    } else if duplicates != [] {
      assert duplicates[0] in duplicates;
      assert Repeated(Flatten(draft.sections), duplicates[0]);
    } else {
      assert forall key :: !Repeated(Flatten(draft.sections), key);
    }
  }

  /** The gate turns away exactly the drafts whose sections hold a key of two data fields. */
  lemma BlockedIff(s: Store, req: string, form: string, seed: Content)
    requires Enabled(s, StartDeploy(req, form, seed))
    ensures var u := Step(s, StartDeploy(req, form, seed));
      var f := s.forms[form];
      && u.forms == s.forms && u.versions == s.versions
      && if SharesKey((if f.draft.title != "" then f.draft else seed).sections)
         then req in u.outcomes && u.outcomes[req] == Blocked
         else req in u.requests && u.requests[req].Reading?
  {
    var f := s.forms[form];
    var draft := EnsureDraft(f, seed);
    assert draft.sections == (if f.draft.title != "" then f.draft else seed).sections;
    GateIff(draft);
    hide Snapshot, SharesKey, Count, GateOpen, EnsureDraft, Enabled, Begin;
    BegunOrBlocked(s, req, form, seed);
  }

  lemma BegunOrBlocked(s: Store, req: string, form: string, seed: Content)
    requires form in s.forms
    ensures var u := Begin(s, req, form, seed);
      && u.forms == s.forms && u.versions == s.versions
      && if GateOpen(EnsureDraft(s.forms[form], seed)) then req in u.requests && u.requests[req].Reading?
         else req in u.outcomes && u.outcomes[req] == Blocked
  {
    hide GateOpen, EnsureDraft, Snapshot, Count;
  }

  /**
   A deploy that gets as far as its save, whatever comes in between: it goes live exactly when the document
   was not saved since it was read, and then what is live, and what the public form shows, is the draft as it
   was read. Otherwise no form changes, and the version that it stored stays behind.
   */
  lemma DeployGoesLiveIff(s: Store, req: string, form: string, seed: Content, run: seq<Action>, t: Store)
    requires Reachable(s) && Enabled(s, StartDeploy(req, form, seed))
    requires Leads(Step(s, StartDeploy(req, form, seed)), run, t) && req in t.requests && t.requests[req].Saving?
    ensures Enabled(t, Save(req)) && form in t.forms
    ensures var w := Step(t, Save(req));
      var id := t.requests[req].versionId;
      var f := s.forms[form];
      var draft := if f.draft.title != "" then f.draft else seed.(title := f.name);
      && req in w.outcomes && form in w.forms && id in w.versions
      && TakenFrom(w.versions[id].content, draft)
      && (w.outcomes[req] == Deployed <==> t.forms[form].revision == f.revision)
      && (w.outcomes[req] == Deployed ==>
            && SavedForm(t, w, form, id, if f.draft.title != "" then [] else [draft])
            && var view := PublicRuntime.GetPublicForm(w, form);
               view.Live? && TakenFrom(view.body.content, draft) && view.body.isDeployed
               && view.body.name == t.forms[form].name && view.body.publicId == t.forms[form].publicId
               && view.body.updatedAt == w.versions[id].updatedAt)
      && (w.outcomes[req] != Deployed ==> w.outcomes[req] == SaveFailed && w.forms == t.forms)
  {
    var a := StartDeploy(req, form, seed);
    var f := s.forms[form];
    var draft := if f.draft.title != "" then f.draft else seed.(title := f.name);
    var seeded := if f.draft.title != "" then [] else [draft];
    Begun(s, req, form, seed);
    assert ([a] + run)[1..] == run;
    hide Step, Carries;
    var content := Snapshot(draft);
    assert TakenFrom(content, draft);
    hide Snapshot;
    RunCarries(Step(s, a), run, t, req, form, f.revision, seeded, content);
    VersionAllocation.RunReachable(s, [a] + run, t);
    hide Leads, Reachable, TakenFrom;
    SaveOfCarrier(t, req, form, f.revision, seeded, content);
  }

  lemma NotStarted(s: Store, req: string)
    requires Reachable(s) && req !in s.started
    ensures req !in s.requests
  {
    ReachableVersions(s);
    assert req in s.requests ==> RequestOk(s, req, s.requests[req]);
  }

  lemma BegunCarries(s: Store, req: string, form: string, seed: Content)
    requires form in s.forms && req !in s.requests
    ensures var f := s.forms[form];
      var draft := if f.draft.title != "" then f.draft else seed.(title := f.name);
      var seeded := if f.draft.title != "" then [] else [draft];
      Carries(Begin(s, req, form, seed), req, form, f.revision, seeded, Snapshot(draft))
  {
    hide GateOpen, Snapshot, Count;
  }

  lemma Begun(s: Store, req: string, form: string, seed: Content)
    requires Reachable(s) && Enabled(s, StartDeploy(req, form, seed))
    ensures var f := s.forms[form];
      var draft := if f.draft.title != "" then f.draft else seed.(title := f.name);
      var seeded := if f.draft.title != "" then [] else [draft];
      Carries(Step(s, StartDeploy(req, form, seed)), req, form, f.revision, seeded, Snapshot(draft))
  {
    hide Reachable, Snapshot, Begin;
    NotStarted(s, req);
    BegunCarries(s, req, form, seed);
  }

  lemma SaveOfCarrier(t: Store, req: string, form: string, revision: nat, seeded: seq<Content>, content: Content)
    requires Reachable(t) && Carries(t, req, form, revision, seeded, content)
    requires req in t.requests && t.requests[req].Saving?
    ensures Enabled(t, Save(req)) && form in t.forms
    ensures var w := Step(t, Save(req));
      var id := t.requests[req].versionId;
      && req in w.outcomes && form in w.forms && id in w.versions && w.versions[id].content == content
      && (w.outcomes[req] == Deployed <==> t.forms[form].revision == revision)
      && (w.outcomes[req] == Deployed ==>
            && SavedForm(t, w, form, id, seeded)
            && var view := PublicRuntime.GetPublicForm(w, form);
               view.Live? && view.body.content == content && view.body.isDeployed
               && view.body.name == t.forms[form].name && view.body.publicId == t.forms[form].publicId
               && view.body.updatedAt == w.versions[id].updatedAt)
      && (w.outcomes[req] != Deployed ==> w.outcomes[req] == SaveFailed && w.forms == t.forms)
  {
    ReachableVersions(t);
    assert RequestOk(t, req, t.requests[req]);
    assert t.requests[req].versionId != "" by {
      PublicRuntime.ReachableRuntime(t);
    }
    hide Reachable, Step, VersionInv;
    SaveIsPossible(t, req);
    Saved(t, req, t.requests[req]);
  }

  // ----- Two requests that have read the same revision -----

  predicate WentLive(s: Store, req: string) {
    req in s.outcomes && s.outcomes[req] == Deployed
  }

  /** Once the request has gone live, the document has moved on from what the request had read. */
  predicate Spent(s: Store, req: string, form: string, revision: nat) {
    && req in s.started && form in s.forms
    && (req in s.requests ==> s.requests[req].form == form && s.requests[req].revision == revision)
    && (WentLive(s, req) ==> revision < s.forms[form].revision)
  }

  predicate OneLive(s: Store, a: string, b: string, form: string, revision: nat) {
    Spent(s, a, form, revision) && Spent(s, b, form, revision) && !(WentLive(s, a) && WentLive(s, b))
  }

  lemma SaveKeepsOneLive(s: Store, req: string, a: string, b: string, form: string, revision: nat)
    requires CanSave(s, req) && a != b && OneLive(s, a, b, form, revision)
    ensures OneLive(SaveForm(s, req), a, b, form, revision)
  {
    hide Retired;
  }

  lemma BeginKeepsOneLive(s: Store, req: string, g: string, seed: Content, a: string, b: string, form: string,
      revision: nat)
    requires g in s.forms && req !in s.started && OneLive(s, a, b, form, revision)
    ensures OneLive(Begin(s, req, g, seed), a, b, form, revision)
  {
    hide GateOpen, Snapshot, EnsureDraft, Count;
  }

  lemma InsertKeepsOneLive(s: Store, req: string, id: string, a: string, b: string, form: string, revision: nat)
    requires req in s.requests && s.requests[req].Inserting? && OneLive(s, a, b, form, revision)
    ensures OneLive(TryInsert(s, req, id), a, b, form, revision)
  {
    hide Count;
  }

  lemma ClockKeepsOneLive(s: Store, clock: nat, a: string, b: string, form: string, revision: nat)
    requires OneLive(s, a, b, form, revision)
    ensures OneLive(s.(clock := clock), a, b, form, revision)
  {
  }

  lemma StepKeepsOneLive(s: Store, x: Action, a: string, b: string, form: string, revision: nat)
    requires Enabled(s, x) && a != b && OneLive(s, a, b, form, revision)
    ensures OneLive(Step(s, x), a, b, form, revision)
  {
    hide Begin, TryInsert, SaveForm, Count, IsLatest, IsObjectId;
    match x
    case StartDeploy(req, g, seed) => BeginKeepsOneLive(s, req, g, seed, a, b, form, revision);
      ClockKeepsOneLive(Begin(s, req, g, seed), s.clock + 1, a, b, form, revision);
    case Insert(req, id) => InsertKeepsOneLive(s, req, id, a, b, form, revision);
      ClockKeepsOneLive(TryInsert(s, req, id), s.clock + 1, a, b, form, revision);
    case Save(req) => SaveKeepsOneLive(s, req, a, b, form, revision);
      ClockKeepsOneLive(SaveForm(s, req), s.clock + 1, a, b, form, revision);
    case _ =>
  }

  lemma {:induction false} RunKeepsOneLive(s: Store, run: seq<Action>, t: Store, a: string, b: string, form: string,
      revision: nat)
    requires Leads(s, run, t) && a != b && OneLive(s, a, b, form, revision)
    ensures OneLive(t, a, b, form, revision)
    decreases |run|
  {
    if run != [] {
      hide Step, Enabled, OneLive;
      StepKeepsOneLive(s, run[0], a, b, form, revision);
      RunKeepsOneLive(Step(s, run[0]), run[1..], t, a, b, form, revision);
    }
  }

  /**
   Of two requests, deploys or re-activations, that have read a form at the same revision, at most one goes
   live on any run, however far each of them has come.
   */
  lemma OnlyOneGoesLive(s: Store, run: seq<Action>, t: Store, a: string, b: string)
    requires Reachable(s) && Leads(s, run, t) && a != b && a in s.requests && b in s.requests
    requires s.requests[a].form == s.requests[b].form && s.requests[a].revision == s.requests[b].revision
    ensures !(WentLive(t, a) && WentLive(t, b))
  {
    var form, revision := s.requests[a].form, s.requests[a].revision;
    ReachableVersions(s);
    assert RequestOk(s, a, s.requests[a]) && RequestOk(s, b, s.requests[b]);
    var first :| Leads(NO_FORMS, first, s);
    RunKeepsForms(NO_FORMS, first, s);
    assert OneLive(s, a, b, form, revision);
    hide OneLive;
    RunKeepsOneLive(s, run, t, a, b, form, revision);
  }

  /** So the second of them to save fails and changes no form, while its version stays behind. */
  lemma SecondSaveFails(s: Store, run: seq<Action>, t: Store, a: string, b: string)
    requires Reachable(s) && Leads(s, run, t) && a != b && a in s.requests && b in s.requests
    requires s.requests[a].form == s.requests[b].form && s.requests[a].revision == s.requests[b].revision
    requires WentLive(t, a) && b in t.requests && t.requests[b].Saving?
    ensures Enabled(t, Save(b))
    ensures var w := Step(t, Save(b));
      b in w.outcomes && w.outcomes[b] == SaveFailed && w.forms == t.forms && t.requests[b].versionId in w.versions
  {
    VersionAllocation.RunReachable(s, run, t);
    hide Reachable, Step, Leads;
    SaveIsPossible(t, b);
    Saved(t, b, t.requests[b]);
    OneMoreSave(s, run, t, b);
    OnlyOneGoesLive(s, run + [Save(b)], Step(t, Save(b)), a, b);
    SaveKeepsOthers(t, a, b);
  }

  lemma OneMoreSave(s: Store, run: seq<Action>, t: Store, b: string)
    requires Leads(s, run, t) && CanSave(t, b)
    ensures Leads(s, run + [Save(b)], Step(t, Save(b)))
  {
    hide Step;
    assert [Save(b)][1..] == [];
    VersionAllocation.LeadsThrough(s, run, t, [Save(b)], Step(t, Save(b)));
  }

  lemma SaveKeepsOthers(t: Store, a: string, b: string)
    requires CanSave(t, b) && a != b && WentLive(t, a)
    ensures WentLive(Step(t, Save(b)), a)
  {
  }
}

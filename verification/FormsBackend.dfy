/** The form service as it changes its collections, one database call per method. */
module FormsBackend {
  import opened FormTree
  import opened JsValues
  import opened Deployments

  /** A partial update of a draft. */
  datatype DraftPatch = DraftPatch(
    title: Option<string>,
    elements: Option<seq<Element>>,
    sections: Option<seq<Section>>,
    layout: Option<string>,
    css: Option<string>)

  function Or<T>(value: Option<T>, otherwise: T): T {
    if value.Some? then value.value else otherwise
  }

  function Patched(draft: Content, patch: DraftPatch, sanitise: string -> string): Content {
    Content(Or(patch.title, draft.title), Or(patch.elements, draft.elements), Or(patch.sections, draft.sections),
            Or(patch.layout, draft.layout), if patch.css.Some? then sanitise(patch.css.value) else draft.css)
  }

  /** `requests` holds what each request keeps in its variables between two calls. */
  class FormsService {
    var clock: nat
    var forms: map<string, Form>
    var versions: map<string, Version>
    var index: map<Slot, string>
    var requests: map<string, Request>
    var outcomes: map<string, Outcome>
    var count: map<string, nat>
    var started: map<string, string>

    ghost function State(): Store
      reads this
    {
      Store(clock, forms, versions, index, requests, outcomes, count, started)
    }

    constructor ()
      ensures State() == NO_FORMS
    {
      clock, forms, versions, index := 0, map[], map[], map[];
      requests, outcomes, count, started := map[], map[], map[], map[];
    }

    method Tick()
      modifies this`clock
      ensures clock == old(clock) + 1
    {
      clock := clock + 1;
    }

    method End(req: string, outcome: Outcome)
      modifies this`requests, this`outcomes
      ensures State() == Finish(old(State()), req, outcome)
    {
      requests := requests - {req};
      outcomes := outcomes[req := outcome];
    }

    /** `updateDraft`: what the request does not mention keeps its value from the stored or the default draft. */
    method UpdateDraft(form: string, patch: DraftPatch, seed: Content, sanitise: string -> string)
      requires form in forms
      modifies this
      ensures State() == Step(old(State()),
          EditDraft(form, Patched(EnsureDraft(old(forms)[form], seed), patch, sanitise)))
      ensures form in forms && forms[form] == old(forms)[form].(draft := forms[form].draft)
      ensures var f := old(forms)[form];
        var was, now := if f.draft.title != "" then f.draft else seed.(title := f.name), forms[form].draft;
        && now.title == (if patch.title.Some? then patch.title.value else was.title)
        && now.elements == (if patch.elements.Some? then patch.elements.value else was.elements)
        && now.sections == (if patch.sections.Some? then patch.sections.value else was.sections)
        && now.layout == (if patch.layout.Some? then patch.layout.value else was.layout)
        && now.css == (if patch.css.Some? then sanitise(patch.css.value) else was.css)
    {
      var draft := forms[form].draft;
      if draft.title == "" {
        draft := seed.(title := forms[form].name);
      }
      if patch.title.Some? {
        draft := draft.(title := patch.title.value);
      }
      if patch.elements.Some? {
        draft := draft.(elements := patch.elements.value);
      }
      if patch.sections.Some? {
        draft := draft.(sections := patch.sections.value);
      }
      if patch.layout.Some? {
        draft := draft.(layout := patch.layout.value);
      }
      if patch.css.Some? {
        draft := draft.(css := sanitise(patch.css.value));
      }
      forms := forms[form := forms[form].(draft := draft)];
      Tick();
    }

    /** The copy passes through the draft update, style sheet sanitiser included. */
    method CopyVersion(form: string, versionId: string, seed: Content, sanitise: string -> string)
      requires form in forms && versionId in versions && versions[versionId].form == form
      modifies this
      ensures State() == Step(old(State()),
          DuplicateVersion(form, versionId, sanitise(old(versions)[versionId].content.css)))
      ensures form in forms && versions == old(versions)
      ensures var c, now := old(versions)[versionId].content, forms[form].draft;
        && now.title == c.title + " (Copy)" && now.elements == c.elements && now.sections == c.sections
        && now.layout == c.layout && now.css == sanitise(c.css)
    {
      var v := versions[versionId].content;
      var patch := DraftPatch(Some(v.title + " (Copy)"), Some(v.elements), Some(v.sections), Some(v.layout),
          Some(v.css));
      UpdateDraft(form, patch, seed, sanitise);
    }

    /** `deployDraft` up to its loop: the stored or the default draft, the gate, and the elements to be stored. */
    method DeployDraft(req: string, form: string, seed: Content)
      requires Enabled(State(), StartDeploy(req, form, seed))
      modifies this
      ensures State() == Step(old(State()), StartDeploy(req, form, seed))
    {
      hide Flatten, DuplicateReferences, Repeated, NoRepeats;
      var draft := forms[form].draft;
      var seeded := [];
      if draft.title == "" {
        draft := seed.(title := forms[form].name);
        seeded := [draft];
      }
      var begunAt := if form in count then count[form] else 0;
      started := started[req := form];
      var duplicates := [];
      var elements := draft.elements;
      if draft.sections != [] {
        duplicates := CheckDuplicateReferences(draft.sections);
        elements := ExtractAllElements(draft.sections);
      }
      if duplicates != [] {
        End(req, Blocked);
      } else {
        var formLayout := if draft.layout != "" then draft.layout else "column";
        var content := draft.(elements := elements, layout := formLayout);
        requests := requests[req := Reading(form, forms[form].revision, seeded, content, 0, begunAt)];
      }
      Tick();
    }

    /** The version of the form with the highest number; 0 stands for none. */
    method FindLatestVersion(form: string) returns (latest: nat)
      ensures IsLatest(index, form, latest)
    {
      latest := 0;
      var rest := index.Keys;
      while rest != {}
        invariant rest <= index.Keys
        invariant latest == 0 || Slot(form, latest) in index
        invariant forall k: nat :: Slot(form, k) in index && Slot(form, k) !in rest ==> k <= latest
        decreases |rest|
      {
        var slot :| slot in rest;
        if slot.form == form && slot.number > latest {
          latest := slot.number;
        }
        rest := rest - {slot};
      }
    }

    /** The first call of an attempt. */
    method ReadLatestVersion(req: string) returns (latest: nat)
      requires req in requests && requests[req].Reading?
      modifies this
      ensures Enabled(old(State()), ReadLatest(req, latest)) && State() == Step(old(State()), ReadLatest(req, latest))
    {
      var q := requests[req];
      latest := FindLatestVersion(q.form);
      requests := requests[req :=
        Inserting(q.form, q.revision, q.seeded, q.content, q.attempts + 1, q.begunAt, latest)];
      Tick();
    }

    /** The second call of an attempt: the insert, or the error of the unique index. */
    method InsertVersion(req: string, id: string)
      requires Enabled(State(), Insert(req, id))
      modifies this
      ensures State() == Step(old(State()), Insert(req, id))
    {
      var q := requests[req];
      var next := Slot(q.form, q.latest + 1);
      var stored := if q.form in count then count[q.form] else 0;
      if next !in index {
        versions := versions[id := Version(q.form, q.latest + 1, q.content, clock, req)];
        index := index[next := id];
        count := count[q.form := stored + 1];
        requests := requests[req := Saving(q.form, q.revision, q.seeded, id)];
      } else if q.attempts < 3 {
        requests := requests[req := Reading(q.form, q.revision, q.seeded, q.content, q.attempts, q.begunAt)];
      } else {
        End(req, GaveUp(q.form, q.begunAt, stored));
      }
      Tick();
    }

    /**
     `deployVersion` up to its save: a version of the form goes live again, an unknown or absent one stands for
     a deploy of the draft, and a malformed identifier is turned away.
     */
    method ReactivateVersion(req: string, form: string, versionId: string, seed: Content) returns (ok: bool)
      requires req !in started && form in forms
      modifies this
      ensures ok == (versionId == "" || IsObjectId(versionId))
      ensures State() == if !ok then old(State())
        else if versionId != "" && versionId in old(versions) && old(versions)[versionId].form == form
        then Step(old(State()), Reactivate(req, form, versionId))
        else Step(old(State()), StartDeploy(req, form, seed))
    {
      if versionId == "" {
        DeployDraft(req, form, seed);
        return true;
      }
      if !IsObjectId(versionId) {
        return false;
      }
      if versionId !in versions || versions[versionId].form != form {
        DeployDraft(req, form, seed);
        return true;
      }
      started := started[req := form];
      requests := requests[req := Saving(form, forms[form].revision, [], versionId)];
      Tick();
      ok := true;
    }

    /** `form.save()`: the version goes live at the head of the history, unless the document has moved on. */
    method SaveDocument(req: string)
      requires CanSave(State(), req)
      modifies this
      ensures State() == Step(old(State()), Save(req))
    {
      var q := requests[req];
      var form := forms[q.form];
      if form.revision != q.revision {
        End(req, SaveFailed);
      } else {
        if q.seeded != [] {
          form := form.(draft := q.seeded[0]);
        }
        var previous := form.deployments;
        var retired: seq<Deployment> := [];
        for i := 0 to |previous|
          invariant |retired| == i
          invariant forall j :: 0 <= j < i ==> retired[j] == previous[j].(isCurrent := false)
        {
          retired := retired + [previous[i].(isCurrent := false)];
        }
        var entry := Deployment(q.versionId, versions[q.versionId].number, true);
        assert retired == Retired(previous);
        forms := forms[q.form := form.(liveId := q.versionId, deployments := [entry] + retired,
            revision := form.revision + 1)];
        End(req, Deployed);
      }
      Tick();
    }
  }
}

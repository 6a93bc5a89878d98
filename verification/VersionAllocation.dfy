/** What concurrent deployments guarantee about version numbers, and when a deployment gives up. */
module VersionAllocation {
  import opened Deployments

  /** In every reachable state the numbers of a form are exactly 1 to n, each stored once. */
  lemma NumbersContiguous(s: Store, form: string)
    requires Reachable(s)
    ensures forall n: nat :: Slot(form, n) in s.index <==> 1 <= n <= Count(s, form)
    ensures forall n: nat :: 1 <= n <= Count(s, form) ==>
      Slot(form, n) in s.index && s.index[Slot(form, n)] in s.versions
      && s.versions[s.index[Slot(form, n)]].form == form && s.versions[s.index[Slot(form, n)]].number == n
    ensures forall i, j | i in s.versions && j in s.versions ::
      s.versions[i].form == s.versions[j].form && s.versions[i].number == s.versions[j].number ==> i == j
    ensures forall i :: i in s.versions ==> 1 <= s.versions[i].number <= Count(s, s.versions[i].form)
  {
    ReachableVersions(s);
    forall n: nat | 1 <= n <= Count(s, form)
      ensures Slot(form, n) in s.index && Named(Slot(form, n), s.index[Slot(form, n)], s.versions)
    {
    }
    forall i, j | i in s.versions && j in s.versions
      ensures SlotOf(s.versions[i]) == SlotOf(s.versions[j]) ==> i == j
    {
      assert Placed(i, s.versions[i], s.index) && Placed(j, s.versions[j], s.index);
    }
    forall i | i in s.versions
      ensures 1 <= s.versions[i].number <= Count(s, s.versions[i].form)
    {
      assert Placed(i, s.versions[i], s.index);
    }
  }

  // ----- From one state to a later one -----

  predicate Allocating(s: Store, req: string) {
    req in s.requests && !s.requests[req].Saving?
  }

  /** No version is lost or changed. */
  ghost predicate VersionsKept(s: Store, t: Store) {
    forall id :: id in s.versions ==> id in t.versions && t.versions[id] == s.versions[id]
  }

  /** What has come since `s`: versions by requests that began later or were allocating, later begins. */
  ghost predicate Since(s: Store, t: Store) {
    && VersionsKept(s, t)
    && (forall id :: id in t.versions && id !in s.versions ==> Newcomer(s, t.versions[id].author))
    && (forall r :: r in t.requests && !t.requests[r].Saving? ==>
        Newcomer(s, r) && LateEnough(s, r, t.requests[r].form, t.requests[r].begunAt))
    && (forall r :: r in t.outcomes && t.outcomes[r].GaveUp? && r !in s.outcomes ==>
          LateEnough(s, r, t.outcomes[r].form, t.outcomes[r].begunAt))
    && (forall f :: Count(s, f) <= Count(t, f))
    && (forall r :: r in s.started ==> r in t.started && t.started[r] == s.started[r])
  }

  predicate Newcomer(s: Store, req: string) {
    req !in s.started || Allocating(s, req)
  }

  predicate LateEnough(s: Store, req: string, form: string, begunAt: nat) {
    req !in s.started ==> begunAt >= Count(s, form)
  }

  /** Calls that store no version and begin no allocation of an old request. */
  lemma QuietSince(s: Store, t: Store, u: Store)
    requires Since(s, t) && u.versions == t.versions && u.count == t.count
    requires forall r :: r in t.started ==> r in u.started && u.started[r] == t.started[r]
    requires forall r :: r in u.requests && !u.requests[r].Saving? ==>
      || (r in t.requests && !t.requests[r].Saving? && SameBegin(t.requests[r], u.requests[r]))
      || (r !in t.started && u.requests[r].begunAt == Count(t, u.requests[r].form))
    requires forall r :: r in u.outcomes && u.outcomes[r].GaveUp? ==>
      || (r in t.outcomes && u.outcomes[r] == t.outcomes[r])
      || (r in t.requests && t.requests[r].Inserting? && u.outcomes[r].form == t.requests[r].form
          && u.outcomes[r].begunAt == t.requests[r].begunAt)
    ensures Since(s, u)
  {
  }

  predicate SameBegin(q: Request, p: Request)
    requires !q.Saving? && !p.Saving?
  {
    q.form == p.form && q.begunAt == p.begunAt
  }

  lemma StoreSince(s: Store, t: Store, req: string, id: string)
    requires Since(s, t) && Enabled(t, Insert(req, id))
    ensures Since(s, StoreVersion(t, req, id))
  {
  }

  lemma ApplySince(s: Store, t: Store, a: Action)
    requires Since(s, t) && Enabled(t, a)
    ensures Since(s, Apply(t, a))
  {
    hide Begin, SaveForm, Since;
    match a
    case Insert(req, id) =>
      if Slot(t.requests[req].form, t.requests[req].latest + 1) !in t.index {
        StoreSince(s, t, req, id);
      } else {
        CollideSince(s, t, req);
      }
    case StartDeploy(req, form, seed) => BeginSince(s, t, req, form, seed);
    case Save(req) => SaveSince(s, t, req);
    case ReadLatest(req, latest) => ReadSince(s, t, req, latest);
    case Reactivate(req, form, id) => ReactivateSince(s, t, req, form, id);
    case _ => FormsSince(s, t, Apply(t, a));
  }

  lemma CollideSince(s: Store, t: Store, req: string)
    requires Since(s, t) && req in t.requests && t.requests[req].Inserting?
    ensures Since(s, Collide(t, req))
  {
    hide Since;
    QuietSince(s, t, Collide(t, req));
  }

  lemma ReadSince(s: Store, t: Store, req: string, latest: nat)
    requires Since(s, t) && req in t.requests && t.requests[req].Reading?
    ensures Since(s, Apply(t, ReadLatest(req, latest)))
  {
    hide Since;
    QuietSince(s, t, Apply(t, ReadLatest(req, latest)));
  }

  lemma ReactivateSince(s: Store, t: Store, req: string, form: string, id: string)
    requires Since(s, t) && form in t.forms && req !in t.started
    ensures Since(s, Apply(t, Reactivate(req, form, id)))
  {
    hide Since;
    QuietSince(s, t, Apply(t, Reactivate(req, form, id)));
  }

  lemma FormsSince(s: Store, t: Store, u: Store)
    requires Since(s, t) && u == t.(forms := u.forms, clock := u.clock)
    ensures Since(s, u)
  {
    hide Since;
    QuietSince(s, t, u);
  }

  lemma BeginSince(s: Store, t: Store, req: string, form: string, seed: Content)
    requires Since(s, t) && form in t.forms && req !in t.started
    ensures Since(s, Begin(t, req, form, seed))
  {
    hide GateOpen, Snapshot, EnsureDraft, Since, Count;
    var u := Begin(t, req, form, seed);
    if GateOpen(EnsureDraft(t.forms[form], seed)) {
      QuietSince(s, t, u);
    } else {
      QuietSince(s, t, u);
    }
  }

  lemma SaveSince(s: Store, t: Store, req: string)
    requires Since(s, t) && CanSave(t, req)
    ensures Since(s, SaveForm(t, req))
  {
    hide Since, MakeLive;
    QuietSince(s, t, SaveForm(t, req));
  }

  lemma {:induction false} RunSince(s: Store, t: Store, run: seq<Action>, u: Store)
    requires Since(s, t) && Leads(t, run, u)
    ensures Since(s, u)
    decreases |run|
  {
    if run != [] {
      hide Since, Apply;
      ApplySince(s, t, run[0]);
      FormsSince(s, Apply(t, run[0]), Step(t, run[0]));
      RunSince(s, Step(t, run[0]), run[1..], u);
    }
  }

  lemma StillSince(s: Store)
    ensures Since(s, s)
    requires RequestsOk(s)
  {
    forall r | r in s.requests
      ensures r in s.started
    {
      assert RequestOk(s, r, s.requests[r]);
    }
  }

  /** A stored version never changes, on any run. */
  lemma VersionsNeverChange(s: Store, run: seq<Action>, t: Store)
    requires Reachable(s) && Leads(s, run, t)
    ensures VersionsKept(s, t)
  {
    ReachableVersions(s);
    StillSince(s);
    RunSince(s, s, run, t);
  }

  // ----- Giving up -----

  function AuthorOf(s: Store, form: string, n: nat): string
    requires Slot(form, n) in s.index && s.index[Slot(form, n)] in s.versions
  {
    s.versions[s.index[Slot(form, n)]].author
  }

  /**
   A deploy that gave up was overtaken at each of its attempts: three other requests, all different,
   stored versions of the form between its begin and its end.
   */
  lemma GivingUpNeedsThreeRivals(s: Store, req: string) returns (a: string, b: string, c: string)
    requires Reachable(s) && req in s.outcomes && s.outcomes[req].GaveUp?
    ensures
      var o := s.outcomes[req];
      && o.begunAt + 3 <= o.endedAt <= Count(s, o.form)
      && (forall n: nat :: 1 <= n <= Count(s, o.form) ==>
          Slot(o.form, n) in s.index && s.index[Slot(o.form, n)] in s.versions)
      && a == AuthorOf(s, o.form, o.begunAt + 1) && b == AuthorOf(s, o.form, o.begunAt + 2)
          && c == AuthorOf(s, o.form, o.begunAt + 3)
    ensures a != b && a != c && b != c && req !in {a, b, c}
    ensures forall r :: r in {a, b, c, req} ==> r in s.started && s.started[r] == s.outcomes[req].form
  {
    var o := s.outcomes[req];
    GaveUpRange(s, req);
    NumbersContiguous(s, o.form);
    hide Reachable, IsLatest;
    var i, j, k := o.begunAt + 1, o.begunAt + 2, o.begunAt + 3;
    AuthorsDiffer(s, req, i, j);
    AuthorsDiffer(s, req, i, k);
    AuthorsDiffer(s, req, j, k);
    a, b, c := AuthorOf(s, o.form, i), AuthorOf(s, o.form, j), AuthorOf(s, o.form, k);
  }

  lemma GaveUpRange(s: Store, req: string)
    requires Reachable(s) && req in s.outcomes && s.outcomes[req].GaveUp?
    ensures var o := s.outcomes[req];
      o.begunAt + 3 <= o.endedAt <= Count(s, o.form) && req in s.started && s.started[req] == o.form
  {
    ReachableVersions(s);
    assert OutcomeOk(s, req, s.outcomes[req]);
  }

  /** Two versions of a form that a request gave up on are by two other requests. */
  lemma AuthorsDiffer(s: Store, req: string, m: nat, n: nat)
    requires Reachable(s) && req in s.outcomes && s.outcomes[req].GaveUp?
    requires 1 <= m < n <= Count(s, s.outcomes[req].form)
    ensures var f := s.outcomes[req].form;
      && Slot(f, m) in s.index && s.index[Slot(f, m)] in s.versions
      && Slot(f, n) in s.index && s.index[Slot(f, n)] in s.versions
      && AuthorOf(s, f, m) != AuthorOf(s, f, n) && req != AuthorOf(s, f, m) && req != AuthorOf(s, f, n)
      && AuthorOf(s, f, m) in s.started && s.started[AuthorOf(s, f, m)] == f
      && AuthorOf(s, f, n) in s.started && s.started[AuthorOf(s, f, n)] == f
  {
    ReachableVersions(s);
    NumbersContiguous(s, s.outcomes[req].form);
    hide Reachable, RequestsOk, NumbersOk;
  }

  /** A deploy whose number is taken reads again after its first and second attempt, and gives up after its third. */
  lemma GivesUpIff(s: Store, req: string, id: string)
    requires Reachable(s) && Enabled(s, Insert(req, id))
    requires Slot(s.requests[req].form, s.requests[req].latest + 1) in s.index
    ensures var q, t := s.requests[req], Step(s, Insert(req, id));
      && 1 <= q.attempts <= 3 && t.forms == s.forms && t.versions == s.versions
      && (q.attempts == 3 ==> req in t.outcomes && t.outcomes[req].GaveUp?)
      && (q.attempts < 3 ==>
            && req in t.requests
            && t.requests[req] == Reading(q.form, q.revision, q.seeded, q.content, q.attempts, q.begunAt))
  {
    ReachableVersions(s);
    assert RequestOk(s, req, s.requests[req]);
    hide Reachable, VersionInv;
  }

  /** Attempts are counted from none, one for each read. */
  lemma AttemptsCount(s: Store, req: string, latest: nat, form: string, seed: Content)
    ensures Enabled(s, ReadLatest(req, latest)) ==>
      Step(s, ReadLatest(req, latest)).requests[req].attempts == s.requests[req].attempts + 1
    ensures Enabled(s, StartDeploy(req, form, seed)) && req !in s.requests ==>
      var t := Step(s, StartDeploy(req, form, seed)); req in t.requests ==> t.requests[req].attempts == 0
  {
    hide GateOpen, Snapshot, EnsureDraft, Count;
  }

  /** The requests on a form that began between two states. */
  function BegunBetween(s: Store, t: Store, form: string): set<string> {
    set r | r in t.started && r !in s.started && t.started[r] == form
  }

  /**
   When no deploy of a form is allocating, and then at most three requests on the form begin, none of
   them gives up, however they interleave.
   */
  lemma ThreeConcurrentDeploysDoNotGiveUp(s: Store, run: seq<Action>, t: Store, form: string, req: string)
    requires Reachable(s) && Leads(s, run, t)
    requires forall r :: r in s.requests && s.requests[r].form == form ==> s.requests[r].Saving?
    requires |BegunBetween(s, t, form)| <= 3
    requires req in BegunBetween(s, t, form)
    ensures req in t.outcomes ==> !t.outcomes[req].GaveUp?
  {
    if req in t.outcomes && t.outcomes[req].GaveUp? {
      ReachableVersions(s);
      StillSince(s);
      RunSince(s, s, run, t);
      RunReachable(s, run, t);
      StartedBeforeOutcome(s, req);
      var a, b, c := ThreeRivalsBegan(s, t, form, req);
      FourOfThree(BegunBetween(s, t, form), a, b, c, req);
    }
  }

  lemma ThreeRivalsBegan(s: Store, t: Store, form: string, req: string) returns (a: string, b: string, c: string)
    requires Reachable(t) && VersionInv(s) && VersionInv(t) && Since(s, t)
    requires forall r :: r in s.requests && s.requests[r].form == form ==> s.requests[r].Saving?
    requires req in BegunBetween(s, t, form) && req !in s.outcomes && req in t.outcomes && t.outcomes[req].GaveUp?
    ensures {a, b, c} <= BegunBetween(s, t, form) && a != b && a != c && b != c && req !in {a, b, c}
  {
    hide Since, VersionInv, Reachable;
    a, b, c := GivingUpNeedsThreeRivals(t, req);
    assert t.outcomes[req].form == form;
    GaveUpLate(s, t, req);
    var from := t.outcomes[req].begunAt;
    RivalBegan(s, t, form, from + 1);
    RivalBegan(s, t, form, from + 2);
    RivalBegan(s, t, form, from + 3);
  }

  lemma GaveUpLate(s: Store, t: Store, req: string)
    requires Since(s, t) && req !in s.started && req !in s.outcomes && req in t.outcomes && t.outcomes[req].GaveUp?
    ensures t.outcomes[req].begunAt >= Count(s, t.outcomes[req].form)
  {
  }

  lemma FourOfThree(x: set<string>, a: string, b: string, c: string, d: string)
    requires a in x && b in x && c in x && d in x && a != b && a != c && b != c && d !in {a, b, c}
    ensures |x| > 3
  {
    assert |x - {a}| == |x| - 1;
    assert |x - {a} - {b}| == |x| - 2;
    assert |x - {a} - {b} - {c}| == |x| - 3;
    assert d in x - {a} - {b} - {c};
  }

  lemma StartedBeforeOutcome(s: Store, req: string)
    requires Reachable(s) && req !in s.started
    ensures req !in s.outcomes
  {
    ReachableVersions(s);
    assert req in s.outcomes ==> OutcomeOk(s, req, s.outcomes[req]);
  }

  /** The author of a version that was not there at `s` began after `s`. */
  lemma RivalBegan(s: Store, t: Store, form: string, n: nat)
    requires VersionInv(s) && VersionInv(t) && Since(s, t)
    requires forall r :: r in s.requests && s.requests[r].form == form ==> s.requests[r].Saving?
    requires Count(s, form) < n <= Count(t, form)
    ensures Slot(form, n) in t.index && t.index[Slot(form, n)] in t.versions
    ensures AuthorOf(t, form, n) in BegunBetween(s, t, form)
  {
    assert Slot(form, n) in t.index;
    var id := t.index[Slot(form, n)];
    assert Named(Slot(form, n), id, t.versions);
    assert id in s.versions ==> Placed(id, s.versions[id], s.index);
    var author := t.versions[id].author;
    assert author in s.requests ==> RequestOk(s, author, s.requests[author]);
  }

  lemma {:induction false} LeadsThrough(s: Store, run: seq<Action>, t: Store, more: seq<Action>, u: Store)
    requires Leads(s, run, t) && Leads(t, more, u)
    ensures Leads(s, run + more, u)
    decreases |run|
  {
    if run == [] {
      assert run + more == more;
    } else {
      assert (run + more)[1..] == run[1..] + more;
      LeadsThrough(Step(s, run[0]), run[1..], t, more, u);
    }
  }

  lemma RunReachable(s: Store, run: seq<Action>, t: Store)
    requires Reachable(s) && Leads(s, run, t)
    ensures Reachable(t) && VersionInv(t)
  {
    var first :| Leads(NO_FORMS, first, s);
    LeadsThrough(NO_FORMS, first, s, run, t);
    ReachableVersions(t);
  }
}

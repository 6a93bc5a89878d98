/** What a lost answer to a refresh costs: exactly when the page's next refresh is taken for a reuse. */
module LostReplies {
  import opened RefreshTokens
  import opened RefreshGate
  import opened PageSession

  /** A token that has been exchanged: its row, while it is stored, is revoked. */
  predicate Spent(s: Server, token: string) {
    token in s.places && (token in s.rows ==> s.rows[token].isRevoked)
  }

  /**
   How the request `r`, which carries the token `c`, stands: a rotation consumed `c`, and so did an issuing answer.
   */
  predicate Carried(s: Server, r: string, c: string) {
    && r != ""
    && (r in s.pending ==> IsRotation(s.pending[r]) || s.pending[r].LookUpReuse? || s.pending[r].RevokeFamily?)
    && (r in s.pending && IsRotation(s.pending[r]) ==> s.pending[r].parent == c)
    && (r in s.replies && s.replies[r].Issued? ==> Spent(s, c))
  }

  // ----- Consumed tokens stay consumed -----

  /** Every stored token stays as it is or gets revoked, unless it is new. */
  ghost predicate OnlyRevokes(s: Server, t: Server) {
    && (forall k :: k in s.places ==> k in t.places)
    && (forall k :: k in s.places && k in t.rows ==> k in s.rows && (s.rows[k].isRevoked ==> t.rows[k].isRevoked))
  }

  lemma ContinueOnlyRevokes(s: Server, req: string, f: string, k: string)
    requires req in s.pending && NewToken(s, k)
    ensures OnlyRevokes(s, Continue(s, req, f, k))
  {
    match s.pending[req]
    case IssueFirst(_) =>
    case IssueNext(_, _, _) =>
    case _ => UserCallOnlyRevokes(s, req, f, k);
  }

  lemma UserCallOnlyRevokes(s: Server, req: string, f: string, k: string)
    requires req in s.pending && !s.pending[req].IssueFirst? && !s.pending[req].IssueNext?
    ensures OnlyRevokes(s, Continue(s, req, f, k))
  {
  }

  lemma StepOnlyRevokes(s: Server, a: Action)
    requires Enabled(s, a)
    ensures OnlyRevokes(s, Step(s, a))
  {
    if a.Resume? {
      ContinueOnlyRevokes(s, a.req, a.freshFamily, a.freshToken);
    } else {
      ApplyOnlyRevokes(s, a);
    }
  }

  lemma ApplyOnlyRevokes(s: Server, a: Action)
    requires Enabled(s, a) && !a.Resume?
    ensures OnlyRevokes(s, Apply(s, a))
  {
  }

  lemma RotationSpent(s: Server, r: string)
    requires ChainInv(s) && r in s.pending && IsRotation(s.pending[r])
    ensures Spent(s, s.pending[r].parent)
  {
    var family, parent := s.pending[r].family, s.pending[r].parent;
    assert RotationOk(family, parent, s.rows, s.chains);
    assert LinkOk(s.chains[family], |s.chains[family]| - 1, family, s.places);
  }

  // ----- The request and its token -----

  lemma OwnContinueCarried(s: Server, r: string, c: string, f: string, k: string)
    requires ChainInv(s) && Separate(s) && Enabled(s, Resume(r, f, k)) && Carried(s, r, c)
    ensures Carried(Continue(s, r, f, k), r, c)
  {
    hide RevokeOfFamily, RevokeOfUser;
    if IsRotation(s.pending[r]) {
      RotationSpent(s, r);
    }
    hide ChainInv;
    ContinueOnlyRevokes(s, r, f, k);
  }

  lemma OwnRefreshCarried(s: Server, r: string, c: string)
    requires NewRequest(s, r) && r != ""
    ensures Carried(PresentToken(s, r, c), r, c)
  {
  }

  lemma CarriedStep(s: Server, a: Action, r: string, c: string)
    requires ChainInv(s) && Separate(s) && Enabled(s, a) && Carried(s, r, c)
    requires RequestOf(a) == r ==> a.Resume? || a == Refresh(r, c)
    ensures Carried(Step(s, a), r, c)
  {
    if RequestOf(a) != r {
      hide Step, ChainInv, Separate, Enabled, Framed, OnlyRevokes, Carried;
      StepFrame(s, a);
      StepOnlyRevokes(s, a);
      OthersCarried(s, Step(s, a), RequestOf(a), r, c);
    } else {
      hide ChainInv, Separate;
      OwnCarried(s, a, r, c);
    }
  }

  lemma OwnCarried(s: Server, a: Action, r: string, c: string)
    requires ChainInv(s) && Separate(s) && Enabled(s, a) && Carried(s, r, c)
    requires RequestOf(a) == r && (a.Resume? || a == Refresh(r, c))
    ensures Carried(Step(s, a), r, c)
  {
    hide ChainInv, Separate;
    if a.Resume? {
      hide Continue;
      OwnContinueCarried(s, r, c, a.freshFamily, a.freshToken);
    } else {
      hide PresentToken;
      OwnRefreshCarried(s, r, c);
    }
  }

  lemma OthersCarried(s: Server, t: Server, req: string, r: string, c: string)
    requires Framed(s, t, req) && OnlyRevokes(s, t) && req != r && Carried(s, r, c)
    ensures Carried(t, r, c)
  {
  }

  // ----- On every run -----

  ghost predicate LossInv(w: World) {
    && ChainInv(w.server) && AnswersDistinct(w.server) && Separate(w.server)
    && (forall r :: r in w.page.refreshes ==> Carried(w.server, r, w.page.refreshes[r]) && r !in w.page.logins)
  }

  lemma ServeKeepsLoss(w: World, a: Action)
    requires LossInv(w) && Can(w, Serve(a))
    ensures LossInv(After(w, Serve(a)))
  {
    hide Step, ChainInv, AnswersDistinct, Separate, Carried;
    StepKeepsChains(w.server, a);
    ServeKeepsAnswers(w.server, a);
    forall r | r in w.page.refreshes
      ensures Carried(Step(w.server, a), r, w.page.refreshes[r])
    {
      NotBlank(w, r);
      CarriedStep(w.server, a, r, w.page.refreshes[r]);
    }
  }

  lemma NotBlank(w: World, r: string)
    requires LossInv(w) && r in w.page.refreshes
    ensures r != ""
  {
  }

  lemma PageKeepsLoss(w: World, e: Event)
    requires LossInv(w) && Can(w, e) && !e.Serve?
    ensures LossInv(After(w, e))
  {
    hide ChainInv, AnswersDistinct, Separate;
    var v := After(w, e);
    forall r | r in v.page.refreshes
      ensures Carried(v.server, r, v.page.refreshes[r]) && r !in v.page.logins
    {
      assert r in w.page.refreshes || FreshRequest(w, r);
    }
  }

  lemma {:induction false} RunKeepsLoss(w: World, run: seq<Event>, v: World)
    requires LossInv(w) && PageSession.Leads(w, run, v)
    ensures LossInv(v)
    decreases |run|
  {
    if run != [] {
      hide LossInv;
      if run[0].Serve? {
        ServeKeepsLoss(w, run[0].call);
      } else {
        PageKeepsLoss(w, run[0]);
      }
      RunKeepsLoss(After(w, run[0]), run[1..], v);
    }
  }

  /** On every run: when a refresh was answered with a new token, the token it carried is spent. */
  lemma IssuedMeansSpent(run: seq<Event>, w: World, req: string)
    requires PageSession.Leads(START, run, w) && req in w.page.refreshes
    requires req in w.server.replies && w.server.replies[req].Issued?
    ensures Spent(w.server, w.page.refreshes[req])
  {
    RunKeepsLoss(START, run, w);
  }

  // ----- Refused refreshes leave their token alone, as long as no account is suspended -----

  predicate NoSuspension(run: seq<Event>) {
    forall i :: 0 <= i < |run| && run[i].Serve? && run[i].call.SetStatus? ==> !run[i].call.suspended
  }

  ghost predicate AllActive(users: map<string, User>) {
    forall u :: u in users ==> !users[u].suspended
  }

  predicate Backed(q: Request, users: map<string, User>) {
    && (q.LoadUser? ==> q.user in users)
    && (q.IssueFirst? || q.IssueNext? ==> q.read.user in users)
  }

  /** Rows and requests name users that exist. */
  ghost predicate UsersOk(s: Server) {
    && (forall t :: t in s.rows ==> s.rows[t].user in s.users)
    && (forall r :: r in s.pending ==> Backed(s.pending[r], s.users))
  }

  lemma ContinueUsers(s: Server, req: string, f: string, k: string)
    requires UsersOk(s) && AllActive(s.users) && req in s.pending
    ensures var t := Continue(s, req, f, k); UsersOk(t) && AllActive(t.users)
  {
    assert Backed(s.pending[req], s.users);
    match s.pending[req]
    case IssueFirst(read) => IssueUsers(s, req, read, f, "", k);
    case IssueNext(read, family, parent) => IssueUsers(s, req, read, family, parent, k);
    case LoadUser(_, _, _) => AwaitUsers(s, req, f, k);
    case LookUpReuse(_) => AwaitUsers(s, req, f, k);
    case CreateUser(user) => CreationUsers(s, req, user);
    case BumpVersion(user) => BumpUsers(s, req, user);
    case StorePassword(user) => BumpUsers(s, req, user);
    case RevokeFamily(_) =>
    case RevokeUser(_) =>
  }

  lemma IssueUsers(s: Server, req: string, read: UserRead, family: string, parent: string, token: string)
    requires UsersOk(s) && AllActive(s.users) && read.user in s.users
    ensures var t := Issue(s, req, read, family, parent, token); UsersOk(t) && AllActive(t.users)
  {
  }

  lemma AwaitUsers(s: Server, req: string, f: string, k: string)
    requires UsersOk(s) && AllActive(s.users) && req in s.pending
    requires s.pending[req].LoadUser? || s.pending[req].LookUpReuse?
    ensures var t := Continue(s, req, f, k); UsersOk(t) && AllActive(t.users)
  {
  }

  lemma CreationUsers(s: Server, req: string, user: string)
    requires UsersOk(s) && AllActive(s.users)
    ensures UsersOk(Answer(s, req, Refused(false)))
    ensures var t := Await(s.(users := s.users[user := User(1, false)]), req, IssueFirst(UserRead(user, 1, s.clock)));
      UsersOk(t) && AllActive(t.users)
  {
  }

  lemma BumpUsers(s: Server, req: string, user: string)
    requires UsersOk(s) && AllActive(s.users)
    ensures UsersOk(Answer(s, req, Refused(false)))
    ensures user in s.users ==>
      && UsersOk(Answer(Bump(s, user), req, Done)) && AllActive(Bump(s, user).users)
      && UsersOk(Await(Bump(s, user), req, RevokeUser(user)))
  {
  }

  lemma ApplyUsers(s: Server, a: Action)
    requires UsersOk(s) && AllActive(s.users) && Enabled(s, a) && !a.Resume? && (a.SetStatus? ==> !a.suspended)
    ensures UsersOk(Apply(s, a)) && AllActive(Apply(s, a).users)
  {
    hide NewRequest;
    match a
    case Refresh(req, token) => PresentUsers(s, req, token);
    case Register(_, _) =>
    case Login(_, _, _) =>
    case Logout(_, _) => LogoutUsers(s, a);
    case LogoutAll(_, _) =>
    case ChangePassword(_, _, _) =>
    case SetStatus(_, _) =>
    case Sweep(_) =>
    case Wait(_) =>
  }

  lemma PresentUsers(s: Server, req: string, token: string)
    requires UsersOk(s)
    ensures UsersOk(PresentToken(s, req, token)) && PresentToken(s, req, token).users == s.users
  {
  }

  lemma LogoutUsers(s: Server, a: Action)
    requires UsersOk(s) && a.Logout?
    ensures UsersOk(Apply(s, a)) && Apply(s, a).users == s.users
  {
  }

  /** A refresh that was refused has not spent its token. */
  predicate Spared(w: World, r: string)
    requires r in w.page.refreshes
  {
    r in w.server.replies && !w.server.replies[r].Issued? ==> w.page.refreshes[r] == "" || Good(w, w.page.refreshes[r])
  }

  ghost predicate SparedInv(w: World) {
    && UsersOk(w.server) && AllActive(w.server.users)
    && (forall r :: r in w.page.refreshes ==> Spared(w, r))
  }

  lemma OwnRefusalSpares(w: World, r: string, f: string, k: string)
    requires SessionInv(w) && Can(w, Serve(Resume(r, f, k))) && r in w.page.refreshes
    requires UsersOk(w.server) && AllActive(w.server.users)
    ensures Spared(After(w, Serve(Resume(r, f, k))), r)
  {
    assert FlightOk(w, r) && Backed(w.server.pending[r], w.server.users);
    hide SessionInv;
    if w.server.pending[r].LookUpReuse? {
      assert Continue(w.server, r, f, k) == Answer(w.server, r, Refused(false));
    }
  }

  lemma ServeSpares(w: World, a: Action, r: string)
    requires SessionInv(w) && SparedInv(w) && Can(w, Serve(a)) && r in w.page.refreshes
    ensures Spared(After(w, Serve(a)), r)
  {
    NeverBlank(w, r);
    if RequestOf(a) != r {
      OthersSpare(w, a, r);
    } else if a.Resume? {
      OwnRefusalSpares(w, r, a.freshFamily, a.freshToken);
    }
  }

  lemma NeverBlank(w: World, r: string)
    requires SessionInv(w) && r in w.page.refreshes
    ensures r != "" && r !in w.page.logins && w.page.refreshes.Keys == {r}
  {
  }

  lemma OthersSpare(w: World, a: Action, r: string)
    requires SessionInv(w) && Can(w, Serve(a)) && r in w.page.refreshes && RequestOf(a) != r && Spared(w, r)
    ensures Spared(After(w, Serve(a)), r)
  {
    NeverBlank(w, r);
    hide Step, SessionInv, Enabled;
    StepFrame(w.server, a);
    if Good(w, w.page.refreshes[r]) {
      GoodKept(w, a, w.page.refreshes[r]);
    }
  }

  lemma EventSpares(w: World, e: Event)
    requires SessionInv(w) && SparedInv(w) && Can(w, e) && !e.ReplyLost?
    requires e.Serve? && e.call.SetStatus? ==> !e.call.suspended
    ensures SparedInv(After(w, e))
  {
    if e.Serve? {
      if e.call.Resume? {
        ContinueUsers(w.server, e.call.req, e.call.freshFamily, e.call.freshToken);
      } else {
        ApplyUsers(w.server, e.call);
      }
      forall r | r in w.page.refreshes
        ensures Spared(After(w, e), r)
      {
        ServeSpares(w, e.call, r);
      }
    } else {
      PageSpares(w, e);
    }
  }

  lemma PageSpares(w: World, e: Event)
    requires SparedInv(w) && Can(w, e) && !e.Serve?
    ensures SparedInv(After(w, e))
  {
    var v := After(w, e);
    forall r | r in v.page.refreshes
      ensures Spared(v, r)
    {
      assert r in w.page.refreshes || FreshRequest(w, r);
    }
  }

  lemma {:induction false} RunSpares(w: World, run: seq<Event>, v: World)
    requires SessionInv(w) && SparedInv(w) && PageSession.Leads(w, run, v) && Delivered(run) && NoSuspension(run)
    ensures SessionInv(v) && SparedInv(v)
    decreases |run|
  {
    if run != [] {
      hide SessionInv, SparedInv, Can, After;
      EventKeeps(w, run[0]);
      EventSpares(w, run[0]);
      assert Delivered(run[1..]) && NoSuspension(run[1..]) by {
        assert forall i :: 0 <= i < |run[1..]| ==> run[1..][i] == run[i + 1];
      }
      RunSpares(After(w, run[0]), run[1..], v);
    }
  }

  // ----- After a loss -----

  /**
   The world after the answer to `req` is lost, the slot is free again, and the request `next` has reached the
   server.
   */
  function NextArrives(w: World, req: string, next: string): World
    requires req in w.page.refreshes
  {
    var w3 := After(After(After(w, ReplyLost(req)), Microtask(req)), Call(next));
    After(w3, Serve(Refresh(next, w.page.cookie)))
  }

  ghost predicate CanLose(w: World, req: string, next: string) {
    && Can(w, ReplyLost(req))
    && (var w1 := After(w, ReplyLost(req));
        && Can(w1, Microtask(req))
        && (var w2 := After(w1, Microtask(req));
            && Can(w2, Call(next))
            && Can(After(w2, Call(next)), Serve(Refresh(next, w.page.cookie)))))
  }

  lemma LossGoesOn(w: World, req: string, next: string)
    requires GateOk(w.page) && req in w.page.refreshes && req in w.server.replies && FreshRequest(w, next)
    ensures CanLose(w, req, next)
    ensures var v := NextArrives(w, req, next);
      && v.server == Step(w.server, Refresh(next, w.page.cookie)) && v.families == w.families
      && v.page.refreshes == map[next := w.page.cookie]
  {
    var w2 := After(After(w, ReplyLost(req)), Microtask(req));
    assert w2.server == w.server && w2.page.slot == "" && w2.page.cookie == w.page.cookie;
    assert w2.page.refreshes == map[];
  }

  /** Once there, the reuse branch fires exactly when the row of the cookie is revoked. */
  lemma NextFiresIff(w: World, req: string, next: string, f: string, k: string)
    requires GateOk(w.page) && req in w.page.refreshes && req in w.server.replies && FreshRequest(w, next)
    requires w.page.cookie != "" && w.page.cookie in w.server.rows && NewFamily(w.server, f) && NewToken(w.server, k)
    ensures CanLose(w, req, next)
    ensures var v := NextArrives(w, req, next);
      && Can(v, Serve(Resume(next, f, k)))
      && (FiresReuse(v, Serve(Resume(next, f, k))) <==> w.server.rows[w.page.cookie].isRevoked)
  {
    LossGoesOn(w, req, next);
    LooksUpIff(w.server, next, w.page.cookie);
    hide GateOk, CanLose, NextArrives, Step;
    FreshStays(w.server, next, w.page.cookie, f, k);
  }

  lemma LooksUpIff(s: Server, next: string, c: string)
    requires NewRequest(s, next) && c != "" && c in s.rows
    ensures var t := Step(s, Refresh(next, c));
      && next in t.pending && c in t.rows
      && (t.pending[next].LookUpReuse? ==> t.pending[next].token == c)
      && (t.pending[next].LookUpReuse? && t.rows[c].isRevoked <==> s.rows[c].isRevoked)
  {
  }

  lemma FreshStays(s: Server, next: string, c: string, f: string, k: string)
    requires NewRequest(s, next) && c in s.rows && NewFamily(s, f) && NewToken(s, k)
    ensures NewFamily(Step(s, Refresh(next, c)), f) && NewToken(Step(s, Refresh(next, c)), k)
  {
    var t := Step(s, Refresh(next, c));
    PresentShape(s, next, c);
    hide Step;
    forall r | r in t.pending && t.pending[r].LookUpReuse?
      ensures t.pending[r].token != k
    {
      assert r != next ==> r in s.pending && t.pending[r] == s.pending[r];
    }
  }

  lemma PresentShape(s: Server, next: string, c: string)
    requires NewRequest(s, next) && c in s.rows
    ensures var t := Step(s, Refresh(next, c));
      && t.places == s.places && t.chains == s.chains && t.rows.Keys == s.rows.Keys
      && (t.pending == s.pending || (next in t.pending && t.pending == s.pending[next := t.pending[next]]))
      && (next in t.pending && t.pending[next].LookUpReuse? ==> t.pending[next].token == c)
  {
  }

  lemma CookieOfRun(w: World, req: string)
    requires SessionInv(w) && req in w.page.refreshes && w.page.cookie in w.server.rows
    ensures w.page.cookie != "" && (w.page.cookie == w.page.refreshes[req] || !w.server.rows[w.page.cookie].isRevoked)
  {
    NeverBlank(w, req);
    assert RowOk(w.page.cookie, w.server.rows[w.page.cookie], w.server.chains, w.server.places);
    assert PlaceOk(w.page.cookie, w.server.places[w.page.cookie], w.server.chains);
  }

  /**
   Delivery is needed. On runs without another loss and without suspended accounts: when the answer to a
   refresh is lost, the page's next refresh is taken for a reuse exactly when the lost answer brought a new
   token and no login has replaced the cookie since.
   */
  lemma LostReplyFiresReuseIff(run: seq<Event>, w: World, req: string, next: string, f: string, k: string)
    requires PageSession.Leads(START, run, w) && Delivered(run) && NoSuspension(run)
    requires req in w.page.refreshes && req in w.server.replies && w.page.cookie in w.server.rows
    requires FreshRequest(w, next) && NewFamily(w.server, f) && NewToken(w.server, k)
    ensures CanLose(w, req, next)
    ensures var v := NextArrives(w, req, next);
      && Can(v, Serve(Resume(next, f, k)))
      && (FiresReuse(v, Serve(Resume(next, f, k)))
          <==> w.server.replies[req].Issued? && w.page.cookie == w.page.refreshes[req])
  {
    RunSpares(START, run, w);
    if w.server.replies[req].Issued? {
      IssuedMeansSpent(run, w, req);
    }
    CookieOfRun(w, req);
    assert Spared(w, req);
    hide CanLose, NextArrives, FiresReuse, Can;
    NextFiresIff(w, req, next, f, k);
  }

  // ----- Such a run -----

  const ACCESS := UserRead("u", 1, 1)
  const SIGNED := Page(true, "", true, "k0", map[], map[], {})
  const WAITING := Page(false, "", false, "", map[], map["r0" := "u"], {})
  const ACCOUNTS := map["u" := User(1, false)]
  const ROW0 := Row("u", "f", false, 2 + SEVEN_DAYS)
  const CHAIN0 := map["f" := [Link("k0", "")]]
  const PLACE0 := map["k0" := Place("f", 0)]
  const REPLY0 := map["r0" := Issued(ACCESS, "k0")]

  // A registration, one call at a time, until its answer has arrived.
  const W1 := World(WAITING, EMPTY, {}, {"u"})
  const W2 := W1.(server := Server(1, map[], map[], map["r0" := CreateUser("u")], map[], {}, map[], map[]))
  const W3 := W1.(server := Server(2, ACCOUNTS, map[], map["r0" := IssueFirst(ACCESS)], map[], {}, map[], map[]))
  const S4 := Server(3, ACCOUNTS, map["k0" := ROW0], map[], REPLY0, {ACCESS}, CHAIN0, PLACE0)
  const W4 := World(WAITING, S4, {"f"}, {"u"})
  const W5 := W4.(page := SIGNED)

  lemma Registers()
    ensures Can(START, Send("r0", "u")) && After(START, Send("r0", "u")) == W1
    ensures Can(W1, Serve(Register("r0", "u"))) && After(W1, Serve(Register("r0", "u"))) == W2
  {
  }

  lemma IsCreated()
    ensures Can(W2, Serve(Resume("r0", "f", "k0"))) && After(W2, Serve(Resume("r0", "f", "k0"))) == W3
  {
    hide Issue;
  }

  lemma IsIssued()
    ensures Can(W3, Serve(Resume("r0", "f", "k0"))) && After(W3, Serve(Resume("r0", "f", "k0"))) == W4
  {
    var t := Issue(W3.server, "r0", ACCESS, "f", "", "k0");
    assert [] + [Link("k0", "")] == [Link("k0", "")];
    assert t.rows == S4.rows && t.chains == S4.chains && t.places == S4.places;
    assert t.pending == map[] && t.replies == REPLY0 && t.signed == S4.signed;
  }

  lemma IsAnswered()
    ensures Can(W4, LoginAnswered("r0", true)) && After(W4, LoginAnswered("r0", true)) == W5
  {
  }

  // Then a refresh, until the server has answered it.
  const W6 := W5.(page := Page(true, "r1", true, "k0", map["r1" := "k0"], map[], {}))
  const S7 := S4.(clock := 4, rows := map["k0" := ROW0.(isRevoked := true)],
      pending := map["r1" := LoadUser("u", "f", "k0")])
  const S8 := S7.(clock := 5, pending := map["r1" := IssueNext(UserRead("u", 1, 4), "f", "k0")])

  lemma IsCalled()
    ensures Can(W5, Call("r1")) && After(W5, Call("r1")) == W6
  {
  }

  lemma IsConsumed()
    ensures Can(W6, Serve(Refresh("r1", "k0"))) && After(W6, Serve(Refresh("r1", "k0"))) == W6.(server := S7)
  {
  }

  lemma IsLoaded()
    ensures var w := W6.(server := S7);
      Can(w, Serve(Resume("r1", "g", "k1"))) && After(w, Serve(Resume("r1", "g", "k1"))) == W6.(server := S8)
  {
  }

  lemma IsRotated() returns (v: World)
    ensures var w := W6.(server := S8);
      Can(w, Serve(Resume("r1", "g", "k1"))) && After(w, Serve(Resume("r1", "g", "k1"))) == v
    ensures v.page == W6.page && v.server.replies.Keys == {"r0", "r1"} && v.server.replies["r1"].Issued?
    ensures v.server.pending == map[] && "k0" in v.server.rows && v.server.chains.Keys == {"f"}
    ensures v.server.places.Keys == {"k0", "k1"} == v.server.rows.Keys
  {
    v := After(W6.(server := S8), Serve(Resume("r1", "g", "k1")));
    assert v.server.chains.Keys == {"f"};
  }

  const LOSABLE := [
    Send("r0", "u"), Serve(Register("r0", "u")), Serve(Resume("r0", "f", "k0")), Serve(Resume("r0", "f", "k0")),
    LoginAnswered("r0", true), Call("r1"), Serve(Refresh("r1", "k0")), Serve(Resume("r1", "g", "k1")),
    Serve(Resume("r1", "g", "k1"))]

  lemma LeadsOn(w: World, e: Event, rest: seq<Event>, v: World)
    requires Can(w, e) && PageSession.Leads(After(w, e), rest, v)
    ensures PageSession.Leads(w, [e] + rest, v)
  {
    assert ([e] + rest)[1..] == rest;
  }

  lemma Refreshes() returns (v: World)
    ensures PageSession.Leads(W5, LOSABLE[5..], v)
    ensures v.page == W6.page && v.server.replies.Keys == {"r0", "r1"} && v.server.replies["r1"].Issued?
    ensures v.server.pending == map[] && "k0" in v.server.rows && v.server.chains.Keys == {"f"}
    ensures v.server.places.Keys == {"k0", "k1"} == v.server.rows.Keys
  {
    hide Can, After;
    v := IsRotated();
    assert PageSession.Leads(v, [], v);
    LeadsOn(W6.(server := S8), LOSABLE[8], [], v);
    IsLoaded();
    LeadsOn(W6.(server := S7), LOSABLE[7], LOSABLE[8..], v);
    IsConsumed();
    LeadsOn(W6, LOSABLE[6], LOSABLE[7..], v);
    IsCalled();
    LeadsOn(W5, LOSABLE[5], LOSABLE[6..], v);
    assert [LOSABLE[5]] + LOSABLE[6..] == LOSABLE[5..];
  }

  lemma LosableRuns() returns (v: World)
    ensures PageSession.Leads(START, LOSABLE, v)
    ensures v.page == W6.page && v.server.replies.Keys == {"r0", "r1"} && v.server.replies["r1"].Issued?
    ensures v.server.pending == map[] && "k0" in v.server.rows && v.server.chains.Keys == {"f"}
    ensures v.server.places.Keys == {"k0", "k1"} == v.server.rows.Keys
  {
    hide Can, After, PageSession.Leads;
    v := Refreshes();
    IsAnswered();
    LeadsOn(W4, LOSABLE[4], LOSABLE[5..], v);
    IsIssued();
    LeadsOn(W3, LOSABLE[3], LOSABLE[4..], v);
    IsCreated();
    LeadsOn(W2, LOSABLE[2], LOSABLE[3..], v);
    Registers();
    LeadsOn(W1, LOSABLE[1], LOSABLE[2..], v);
    LeadsOn(START, LOSABLE[0], LOSABLE[1..], v);
    assert [LOSABLE[0]] + LOSABLE[1..] == LOSABLE;
  }

  lemma LosableIsQuiet()
    ensures Delivered(LOSABLE) && NoSuspension(LOSABLE)
  {
  }

  /** One registration, one rotation, one lost answer: the next refresh fires the reuse branch. */
  lemma LostReplyFires() returns (v: World)
    ensures PageSession.Leads(START, LOSABLE, v) && "r1" in v.page.refreshes
    ensures CanLose(v, "r1", "r2") && Can(NextArrives(v, "r1", "r2"), Serve(Resume("r2", "g", "k2")))
    ensures FiresReuse(NextArrives(v, "r1", "r2"), Serve(Resume("r2", "g", "k2")))
  {
    hide CanLose, NextArrives, FiresReuse, Can, After, PageSession.Leads;
    v := LosableRuns();
    LosableIsQuiet();
    LostReplyFiresReuseIff(LOSABLE, v, "r1", "r2", "g", "k2");
  }
}

/**
 One page and the authentication server together. The page may call, log in, and let its timer fire
 at any moment; other clients work with their own tokens; calls interleave freely.
 */
module PageSession {
  import opened RefreshTokens
  import SessionFamilies
  import opened RefreshGate

  /** `families` are the token families that this page's logins created, `users` the users it logged in as. */
  datatype World = World(page: Page, server: Server, families: set<string>, users: set<string>)

  const START := World(FIRST_LOAD, EMPTY, {}, {})

  datatype Event =
    | Call(req: string)
    | Timer(req: string)
    | Send(req: string, user: string)
    | Serve(call: Action)
    | Answered(req: string, readable: bool, timed: bool)
    | LoginAnswered(req: string, timed: bool)
    | RequestLost(req: string)
    | ReplyLost(req: string)
    | Microtask(req: string)

  predicate Mine(w: World, token: string) {
    token in w.server.places && w.server.places[token].family in w.families
  }

  predicate OfPage(p: Page, req: string) {
    req in p.refreshes || req in p.logins || req in p.releases
  }

  predicate FreshRequest(w: World, req: string) {
    req != "" && NewRequest(w.server, req) && !OfPage(w.page, req)
  }

  predicate RevokesUser(q: Request, user: string) {
    q == StorePassword(user) || q == RevokeUser(user)
  }

  /**
   The database calls considered: those of the page's own requests, and those of other clients.
   Others do not hold this page's tokens, and do not end this page's users' sessions.
   */
  predicate MayServe(w: World, a: Action) {
    match a
    case Refresh(req, token) =>
      if req in w.page.refreshes then token == w.page.refreshes[req]
      else !OfPage(w.page, req) && !Mine(w, token)
    case Login(req, user, _) => if req in w.page.logins then user == w.page.logins[req] else !OfPage(w.page, req)
    case Register(req, user) => if req in w.page.logins then user == w.page.logins[req] else !OfPage(w.page, req)
    case Logout(req, token) => !OfPage(w.page, req) && !Mine(w, token)
    case LogoutAll(req, user) => !OfPage(w.page, req) && user !in w.users
    case ChangePassword(req, user, _) => !OfPage(w.page, req) && user !in w.users
    case _ => true
  }

  ghost predicate Can(w: World, e: Event) {
    match e
    case Call(req) => FreshRequest(w, req)
    case Timer(req) => FreshRequest(w, req) && w.page.timerArmed
    case Send(req, user) =>
      FreshRequest(w, req) && forall r :: r in w.server.pending ==> !RevokesUser(w.server.pending[r], user)
    case Serve(a) => Enabled(w.server, a) && MayServe(w, a)
    case Answered(req, _, _) => req in w.page.refreshes && req in w.server.replies
    case LoginAnswered(req, _) => req in w.page.logins && req in w.server.replies
    case RequestLost(req) => req in w.page.refreshes && NewRequest(w.server, req)
    case ReplyLost(req) => req in w.page.refreshes && !NewRequest(w.server, req)
    case Microtask(req) => req in w.page.releases
  }

  /** The cookie that an answer to a refresh leaves: the new token, or none after a refusal. */
  function CookieOf(reply: Reply): string {
    if reply.Issued? then reply.token else ""
  }

  function TokenOf(present: bool, timed: bool): AccessToken {
    if !present then NoToken else if timed then Timed else Plain
  }

  function FamiliesAfter(w: World, a: Action): set<string> {
    if a.Resume? && a.req in w.page.logins && a.req in w.server.pending && w.server.pending[a.req].IssueFirst?
    then w.families + {a.freshFamily}
    else w.families
  }

  function After(w: World, e: Event): World
    requires e.Serve? && e.call.Resume? ==> e.call.req in w.server.pending
    requires e.Serve? && e.call.SetStatus? ==> e.call.user in w.server.users
    requires e.Answered? || e.LoginAnswered? ==> e.req in w.server.replies
  {
    match e
    case Call(req) => w.(page := GetOrStart(w.page, req))
    case Timer(req) => w.(page := TimerFires(w.page, req))
    case Send(req, user) => w.(page := SendLogin(w.page, req, user), users := w.users + {user})
    case Serve(a) => w.(server := Step(w.server, a), families := FamiliesAfter(w, a))
    case Answered(req, readable, timed) =>
      var reply := w.server.replies[req];
      w.(page := Settle(w.page, req, CookieOf(reply), TokenOf(reply.Issued? && readable, timed)))
    case LoginAnswered(req, timed) =>
      var reply := w.server.replies[req];
      w.(page := LoginSettles(w.page, req, TokenOf(reply.Issued?, timed), CookieOf(reply)))
    case RequestLost(req) => w.(page := Settle(w.page, req, w.page.cookie, NoToken))
    case ReplyLost(req) => w.(page := Settle(w.page, req, w.page.cookie, NoToken))
    case Microtask(req) => w.(page := Release(w.page, req))
  }

  ghost predicate Leads(w: World, run: seq<Event>, v: World)
    decreases |run|
  {
    if run == [] then w == v
    else Can(w, run[0]) && Leads(After(w, run[0]), run[1..], v)
  }

  /** No answer of the server to a refresh gets lost. Requests may get lost on the way. */
  predicate Delivered(run: seq<Event>) {
    forall i :: 0 <= i < |run| ==> !run[i].ReplyLost?
  }

  // ----- The invariant -----

  /** A token of this page that can still be presented without looking like a reuse. */
  predicate Unspent(s: Server, token: string) {
    token in s.places && (token in s.rows ==> !s.rows[token].isRevoked)
  }

  predicate Good(w: World, token: string) {
    Mine(w, token) && Unspent(w.server, token)
  }

  predicate ReplyOk(w: World, reply: Reply) {
    reply == Refused(false) || (reply.Issued? && reply.token != "" && Good(w, reply.token))
  }

  predicate FlightOk(w: World, req: string)
    requires req in w.page.refreshes
  {
    var s := w.server;
    var carried := w.page.refreshes[req];
    if req in s.replies then
      req !in s.pending && ReplyOk(w, s.replies[req])
    else if req in s.pending then
      || (IsRotation(s.pending[req]) && s.pending[req].family in w.families)
      || (s.pending[req] == LookUpReuse(carried) && Good(w, carried))
    else
      carried == "" || Good(w, carried)
  }

  /** The page has the token, as its cookie or in a refresh on its way. */
  predicate Presented(p: Page, token: string) {
    token == p.cookie || (p.slot in p.refreshes && token == p.refreshes[p.slot])
  }

  predicate PresentedMine(w: World) {
    && (w.page.cookie == "" || Mine(w, w.page.cookie))
    && (w.page.slot in w.page.refreshes ==>
        w.page.refreshes[w.page.slot] == "" || Mine(w, w.page.refreshes[w.page.slot]))
  }

  /** Each issued refresh token was answered to one request. */
  ghost predicate AnswersDistinct(s: Server) {
    && (forall r :: r in s.replies && s.replies[r].Issued? ==> s.replies[r].token in s.places)
    && (forall r, q | r in s.replies && q in s.replies && s.replies[r].Issued? && s.replies[q].Issued? ::
          s.replies[r].token == s.replies[q].token ==> r == q)
  }

  /** No request is both answered and waiting. */
  ghost predicate Separate(s: Server) {
    forall r :: r in s.replies ==> r !in s.pending
  }

  predicate LoginOk(w: World, req: string)
    requires req in w.page.logins
  {
    var s := w.server;
    if req in s.replies then
      && req !in s.pending
      && ReplyOk(w, s.replies[req])
      && (s.replies[req].Issued? ==> !Presented(w.page, s.replies[req].token))
    else
      req in s.pending ==>
        || s.pending[req] == CreateUser(w.page.logins[req])
        || (s.pending[req].IssueFirst? && s.pending[req].read.user == w.page.logins[req])
  }

  predicate CookieOk(w: World) {
    || w.page.cookie == ""
    || Good(w, w.page.cookie)
    || (w.page.slot in w.page.refreshes && w.page.refreshes[w.page.slot] == w.page.cookie)
  }

  /** What other requests may be waiting to do: nothing that revokes a token of this page. */
  predicate PendingOk(w: World, req: string, q: Request) {
    && (q.RevokeFamily? ==> q.family !in w.families)
    && (q.LookUpReuse? && req !in w.page.refreshes ==> !Mine(w, q.token))
    && (q.StorePassword? || q.RevokeUser? ==> q.user !in w.users)
    && (q.LoadUser? && q.family in w.families ==> q.user in w.users)
    && (q.IssueNext? && q.family in w.families ==> q.read.user in w.users)
  }

  ghost predicate OutsideOk(w: World) {
    && (forall r :: r in w.server.pending ==> PendingOk(w, r, w.server.pending[r]))
    && (forall t :: t in w.server.rows && w.server.rows[t].family in w.families ==> w.server.rows[t].user in w.users)
    && (forall f :: f in w.families ==> f in w.server.chains)
  }

  ghost predicate PageOk(w: World) {
    && GateOk(w.page)
    && (forall r :: r in w.page.refreshes ==> FlightOk(w, r))
    && (forall r :: r in w.page.logins ==> LoginOk(w, r) && w.page.logins[r] in w.users && !(r in w.page.refreshes))
    && CookieOk(w)
    && PresentedMine(w)
  }

  ghost predicate SessionInv(w: World) {
    ChainInv(w.server) && AnswersDistinct(w.server) && Separate(w.server) && OutsideOk(w) && PageOk(w)
  }

  // ----- Calls of the server -----

  function RequestOf(a: Action): string {
    match a
    case SetStatus(_, _) => ""
    case Sweep(_) => ""
    case Wait(_) => ""
    case _ => a.req
  }

  /** The calls that revoke `token`. */
  predicate Spends(s: Server, a: Action, token: string)
    requires token in s.rows
  {
    match a
    case Refresh(_, t) => t == token
    case Logout(_, t) => t == token
    case LogoutAll(_, user) => s.rows[token].user == user
    case Resume(req, _, _) =>
      req in s.pending &&
      (s.pending[req] == RevokeFamily(s.rows[token].family) || s.pending[req] == RevokeUser(s.rows[token].user))
    case _ => false
  }

  /** A call answers its request, or leaves it waiting for its next call. */
  predicate Moves(s: Server, t: Server, req: string) {
    || (t.pending == s.pending && t.replies == s.replies)
    || (t.pending == s.pending - {req} && req in t.replies && t.replies == s.replies[req := t.replies[req]])
    || (req in t.pending && t.pending == s.pending[req := t.pending[req]] && t.replies == s.replies
        && (req in s.pending || req !in s.replies))
  }

  /** The effect of a call on places, and on the requests. */
  ghost predicate Framed(s: Server, t: Server, req: string) {
    && (forall k :: k in s.places ==> k in t.places && t.places[k] == s.places[k])
    && Moves(s, t, req)
  }

  lemma AnswerFrame(s: Server, t: Server, req: string, reply: Reply)
    requires t.pending == s.pending - {req} && t.replies == s.replies[req := reply]
    requires forall k :: k in s.places ==> k in t.places && t.places[k] == s.places[k]
    ensures Framed(s, t, req)
  {
  }

  lemma AwaitFrame(s: Server, t: Server, req: string, next: Request)
    requires t.pending == s.pending[req := next] && t.replies == s.replies && t.places == s.places
    requires req in s.pending
    ensures Framed(s, t, req)
  {
  }

  lemma ContinueFrame(s: Server, req: string, f: string, k: string)
    requires Enabled(s, Resume(req, f, k))
    ensures Framed(s, Continue(s, req, f, k), req)
  {
    var q := s.pending[req];
    if q.CreateUser? || q.LoadUser? || q.LookUpReuse? || q.StorePassword? {
      AwaitedFrame(s, req, f, k);
    } else {
      AnsweredFrame(s, req, f, k);
    }
  }

  lemma AwaitedFrame(s: Server, req: string, f: string, k: string)
    requires req in s.pending && var q := s.pending[req];
      q.CreateUser? || q.LoadUser? || q.LookUpReuse? || q.StorePassword?
    ensures Framed(s, Continue(s, req, f, k), req)
  {
    hide Framed;
    var t := Continue(s, req, f, k);
    match s.pending[req]
    case CreateUser(user) =>
      if user in s.users {
        AnswerFrame(s, t, req, Refused(false));
      } else {
        AwaitFrame(s, t, req, IssueFirst(UserRead(user, 1, s.clock)));
      }
    case LoadUser(user, family, parent) =>
      if user !in s.users || s.users[user].suspended {
        AnswerFrame(s, t, req, Refused(false));
      } else {
        AwaitFrame(s, t, req, IssueNext(ReadUser(s, user), family, parent));
      }
    case LookUpReuse(token) =>
      if token in s.rows && s.rows[token].isRevoked {
        AwaitFrame(s, t, req, RevokeFamily(s.rows[token].family));
      } else {
        AnswerFrame(s, t, req, Refused(false));
      }
    case StorePassword(user) =>
      if user in s.users {
        AwaitFrame(s, t, req, RevokeUser(user));
      } else {
        AnswerFrame(s, t, req, Refused(false));
      }
  }

  lemma AnsweredFrame(s: Server, req: string, f: string, k: string)
    requires Enabled(s, Resume(req, f, k)) && var q := s.pending[req];
      q.IssueFirst? || q.IssueNext? || q.RevokeFamily? || q.RevokeUser? || q.BumpVersion?
    ensures Framed(s, Continue(s, req, f, k), req)
  {
    hide Framed, RevokeOfFamily, RevokeOfUser;
    var t := Continue(s, req, f, k);
    match s.pending[req]
    case IssueFirst(read) => AnswerFrame(s, t, req, Issued(read, k));
    case IssueNext(read, _, _) => AnswerFrame(s, t, req, Issued(read, k));
    case RevokeFamily(_) => AnswerFrame(s, t, req, Refused(true));
    case RevokeUser(_) => AnswerFrame(s, t, req, Done);
    case BumpVersion(user) => AnswerFrame(s, t, req, if user in s.users then Done else Refused(false));
  }

  lemma ApplyFrame(s: Server, a: Action)
    requires Enabled(s, a) && !a.Resume?
    ensures Framed(s, Apply(s, a), RequestOf(a))
  {
    if a.Refresh? {
      PresentFrame(s, a.req, a.token);
    } else {
      StartFrame(s, a);
    }
  }

  lemma PresentFrame(s: Server, req: string, token: string)
    requires NewRequest(s, req)
    ensures Framed(s, PresentToken(s, req, token), req)
  {
  }

  lemma StartFrame(s: Server, a: Action)
    requires Enabled(s, a) && !a.Resume? && !a.Refresh?
    ensures Framed(s, Apply(s, a), RequestOf(a))
  {
    hide RevokeOfUser;
  }

  lemma StepFrame(s: Server, a: Action)
    requires Enabled(s, a)
    ensures Framed(s, Step(s, a), RequestOf(a))
  {
    if a.Resume? {
      ContinueFrame(s, a.req, a.freshFamily, a.freshToken);
    } else {
      ApplyFrame(s, a);
    }
  }

  lemma ContinueSpares(s: Server, req: string, f: string, k: string, token: string)
    requires Enabled(s, Resume(req, f, k)) && Unspent(s, token)
    requires token in s.rows ==> !Spends(s, Resume(req, f, k), token)
    ensures Unspent(Continue(s, req, f, k), token)
  {
  }

  lemma ApplySpares(s: Server, a: Action, token: string)
    requires Enabled(s, a) && Unspent(s, token) && !a.Resume?
    requires token in s.rows ==> !Spends(s, a, token)
    ensures Unspent(Apply(s, a), token)
  {
  }

  lemma StepSpares(s: Server, a: Action, token: string)
    requires Enabled(s, a) && Unspent(s, token)
    requires token in s.rows ==> !Spends(s, a, token)
    ensures Unspent(Step(s, a), token)
  {
    if a.Resume? {
      ContinueSpares(s, a.req, a.freshFamily, a.freshToken, token);
    } else {
      ApplySpares(s, a, token);
    }
  }

  /** Among the calls considered, only the page's own refresh spends a token of the page. */
  lemma OnlyOwnRefreshSpends(w: World, a: Action, token: string)
    requires SessionInv(w) && Can(w, Serve(a)) && Mine(w, token) && token in w.server.rows
    requires Spends(w.server, a, token)
    ensures a.Refresh? && a.token == token && a.req in w.page.refreshes && a.req == w.page.slot
  {
    assert RowOk(token, w.server.rows[token], w.server.chains, w.server.places);
    assert a.Resume? ==> PendingOk(w, a.req, w.server.pending[a.req]);
  }

  lemma GoodKept(w: World, a: Action, token: string)
    requires SessionInv(w) && Can(w, Serve(a)) && Good(w, token)
    requires a.Refresh? && a.req in w.page.refreshes ==> a.token != token
    ensures Good(After(w, Serve(a)), token)
  {
    hide Step;
    if token in w.server.rows && Spends(w.server, a, token) {
      OnlyOwnRefreshSpends(w, a, token);
    }
    StepSpares(w.server, a, token);
    StepFrame(w.server, a);
  }

  // ----- The invariant under calls of the server -----

  lemma OwnRefreshArrives(w: World, req: string)
    requires SessionInv(w) && req in w.page.refreshes && Can(w, Serve(Refresh(req, w.page.refreshes[req])))
    ensures FlightOk(After(w, Serve(Refresh(req, w.page.refreshes[req]))), req)
  {
    var token := w.page.refreshes[req];
    assert FlightOk(w, req);
    if token != "" && token in w.server.rows {
      assert RowOk(token, w.server.rows[token], w.server.chains, w.server.places);
    }
  }

  lemma OwnRefreshContinues(w: World, req: string, f: string, k: string)
    requires SessionInv(w) && req in w.page.refreshes && Can(w, Serve(Resume(req, f, k)))
    ensures FlightOk(After(w, Serve(Resume(req, f, k))), req)
  {
    var s := w.server;
    var v := After(w, Serve(Resume(req, f, k)));
    assert FlightOk(w, req);
    if s.pending[req].IssueNext? {
      assert RotationOk(s.pending[req].family, s.pending[req].parent, s.rows, s.chains);
      assert v.server.replies[req] == Issued(s.pending[req].read, k);
      assert v.server.places[k].family == s.pending[req].family;
      assert Good(v, k);
    }
  }

  lemma ServeKeepsFlight(w: World, a: Action, req: string)
    requires SessionInv(w) && Can(w, Serve(a)) && req in w.page.refreshes
    ensures FlightOk(After(w, Serve(a)), req)
  {
    assert FlightOk(w, req);
    assert req == w.page.slot;
    if RequestOf(a) == req && a.Refresh? {
      OwnRefreshArrives(w, req);
    } else if RequestOf(a) == req && a.Resume? {
      OwnRefreshContinues(w, req, a.freshFamily, a.freshToken);
    } else {
      OtherCallKeepsFlight(w, a, req);
    }
  }

  lemma OtherCallKeepsFlight(w: World, a: Action, req: string)
    requires SessionInv(w) && Can(w, Serve(a)) && req in w.page.refreshes && RequestOf(a) != req
    requires a.Refresh? ==> a.req !in w.page.refreshes
    ensures FlightOk(After(w, Serve(a)), req)
  {
    hide Step, GateOk, CookieOk, OutsideOk;
    assert FlightOk(w, req);
    StepFrame(w.server, a);
    if Good(w, w.page.refreshes[req]) {
      GoodKept(w, a, w.page.refreshes[req]);
    }
    if req in w.server.replies && w.server.replies[req].Issued? {
      GoodKept(w, a, w.server.replies[req].token);
    }
  }

  lemma OwnLoginMoves(w: World, a: Action, req: string)
    requires SessionInv(w) && Can(w, Serve(a)) && req in w.page.logins && RequestOf(a) == req
    ensures LoginOk(After(w, Serve(a)), req)
  {
    assert LoginOk(w, req) && req !in w.page.refreshes;
    if a.Resume? && w.server.pending[req].IssueFirst? {
      var v := After(w, Serve(a));
      assert v.server.places[a.freshToken].family == a.freshFamily;
      assert Good(v, a.freshToken);
    }
  }

  lemma ServeKeepsLogin(w: World, a: Action, req: string)
    requires SessionInv(w) && Can(w, Serve(a)) && req in w.page.logins
    ensures LoginOk(After(w, Serve(a)), req)
  {
    hide Step;
    assert LoginOk(w, req);
    if RequestOf(a) == req {
      OwnLoginMoves(w, a, req);
    } else {
      StepFrame(w.server, a);
      if req in w.server.replies && w.server.replies[req].Issued? {
        GoodKept(w, a, w.server.replies[req].token);
      }
    }
  }

  lemma ServeKeepsCookie(w: World, a: Action)
    requires SessionInv(w) && Can(w, Serve(a))
    ensures CookieOk(After(w, Serve(a))) && PresentedMine(After(w, Serve(a)))
  {
    hide Step;
    StepFrame(w.server, a);
    assert forall k :: Mine(w, k) ==> Mine(After(w, Serve(a)), k);
    if Good(w, w.page.cookie) && !(a.Refresh? && a.req in w.page.refreshes && a.token == w.page.cookie) {
      GoodKept(w, a, w.page.cookie);
    }
  }

  lemma ServeKeepsPage(w: World, a: Action)
    requires SessionInv(w) && Can(w, Serve(a))
    ensures PageOk(After(w, Serve(a)))
  {
    hide Step;
    var v := After(w, Serve(a));
    ServeKeepsCookie(w, a);
    forall r | r in v.page.refreshes
      ensures FlightOk(v, r)
    {
      ServeKeepsFlight(w, a, r);
    }
    forall r | r in v.page.logins
      ensures LoginOk(v, r)
    {
      ServeKeepsLogin(w, a, r);
    }
    assert v.page == w.page && v.users == w.users;
  }

  /** A request that did not move is still harmless; the only new family is one nobody waits to revoke. */
  lemma PendingStaysOk(w: World, a: Action, req: string)
    requires SessionInv(w) && Can(w, Serve(a)) && req in w.server.pending
    ensures PendingOk(After(w, Serve(a)), req, w.server.pending[req])
  {
    hide Step;
    var q := w.server.pending[req];
    assert PendingOk(w, req, q);
    if IsRotation(q) {
      assert RotationOk(q.family, q.parent, w.server.rows, w.server.chains);
    }
    if q.LookUpReuse? && req !in w.page.refreshes {
      LookedUpStaysForeign(w, a, req);
    }
  }

  lemma LookedUpStaysForeign(w: World, a: Action, req: string)
    requires SessionInv(w) && Can(w, Serve(a)) && req in w.server.pending && w.server.pending[req].LookUpReuse?
    requires !Mine(w, w.server.pending[req].token)
    ensures !Mine(After(w, Serve(a)), w.server.pending[req].token)
  {
    hide Step;
    var token := w.server.pending[req].token;
    StepFrame(w.server, a);
    if token in w.server.places {
      assert PlaceOk(token, w.server.places[token], w.server.chains);
    } else {
      OnlyFreshPlaced(w.server, a, token);
    }
  }

  lemma OnlyFreshPlaced(s: Server, a: Action, token: string)
    requires Enabled(s, a) && token !in s.places
    requires a.Resume? ==> token != a.freshToken
    ensures token !in Step(s, a).places
  {
    hide RevokeOfFamily, RevokeOfUser;
    if a.Resume? {
      ContinuePlaces(s, a.req, a.freshFamily, a.freshToken);
    }
  }

  lemma ContinuePlaces(s: Server, req: string, f: string, k: string)
    requires req in s.pending
    ensures forall t :: t in Continue(s, req, f, k).places ==> t in s.places || t == k
  {
    hide RevokeOfFamily, RevokeOfUser;
  }

  /** A lookup that finds a revoked row is about a family of someone else. */
  lemma FoundReuseIsForeign(w: World, req: string)
    requires SessionInv(w) && req in w.server.pending && w.server.pending[req].LookUpReuse?
    requires w.server.pending[req].token in w.server.rows && w.server.rows[w.server.pending[req].token].isRevoked
    ensures w.server.rows[w.server.pending[req].token].family !in w.families
    ensures req !in w.page.refreshes
  {
    var token := w.server.pending[req].token;
    assert RowOk(token, w.server.rows[token], w.server.chains, w.server.places);
    assert PendingOk(w, req, w.server.pending[req]);
    assert req in w.page.refreshes ==> FlightOk(w, req);
  }

  /** What a request that goes on waits for next. */
  predicate NextOf(s: Server, q: Request, next: Request) {
    match q
    case CreateUser(user) => next == IssueFirst(UserRead(user, 1, s.clock))
    case LoadUser(user, family, parent) => user in s.users && next == IssueNext(ReadUser(s, user), family, parent)
    case LookUpReuse(token) =>
      token in s.rows && s.rows[token].isRevoked && next == RevokeFamily(s.rows[token].family)
    case StorePassword(user) => next == RevokeUser(user)
    case _ => false
  }

  lemma ContinueNext(s: Server, req: string, f: string, k: string)
    requires req in s.pending && req in Continue(s, req, f, k).pending
    ensures NextOf(s, s.pending[req], Continue(s, req, f, k).pending[req])
  {
    var q := s.pending[req];
    if q.IssueFirst? || q.IssueNext? || q.RevokeFamily? || q.RevokeUser? || q.BumpVersion? {
      AnsweredLeaves(s, req, f, k);
    } else {
      AwaitedNext(s, req, f, k);
    }
  }

  lemma AnsweredLeaves(s: Server, req: string, f: string, k: string)
    requires req in s.pending && var q := s.pending[req];
      q.IssueFirst? || q.IssueNext? || q.RevokeFamily? || q.RevokeUser? || q.BumpVersion?
    ensures req !in Continue(s, req, f, k).pending
  {
  }

  lemma AwaitedNext(s: Server, req: string, f: string, k: string)
    requires req in s.pending && req in Continue(s, req, f, k).pending && var q := s.pending[req];
      q.CreateUser? || q.LoadUser? || q.LookUpReuse? || q.StorePassword?
    ensures NextOf(s, s.pending[req], Continue(s, req, f, k).pending[req])
  {
  }

  lemma ResumedIsOk(w: World, req: string, f: string, k: string)
    requires SessionInv(w) && Can(w, Serve(Resume(req, f, k))) && req in Step(w.server, Resume(req, f, k)).pending
    ensures PendingOk(After(w, Serve(Resume(req, f, k))), req, Step(w.server, Resume(req, f, k)).pending[req])
  {
    hide Continue;
    var q := w.server.pending[req];
    ContinueNext(w.server, req, f, k);
    assert PendingOk(w, req, q);
    if q.LookUpReuse? {
      FoundReuseIsForeign(w, req);
    }
  }

  lemma RefreshNext(s: Server, req: string, token: string)
    requires req !in s.pending && req in PresentToken(s, req, token).pending
    ensures var q := PresentToken(s, req, token).pending[req];
      || q == LookUpReuse(token)
      || (token in s.rows && !s.rows[token].isRevoked && q == LoadUser(s.rows[token].user, s.rows[token].family, token))
    ensures PresentToken(s, req, token).places == s.places
  {
  }

  lemma RefreshedIsOk(w: World, req: string, token: string)
    requires SessionInv(w) && Can(w, Serve(Refresh(req, token))) && req in Step(w.server, Refresh(req, token)).pending
    ensures PendingOk(After(w, Serve(Refresh(req, token))), req, Step(w.server, Refresh(req, token)).pending[req])
  {
    hide PresentToken;
    RefreshNext(w.server, req, token);
    if token in w.server.rows {
      assert RowOk(token, w.server.rows[token], w.server.chains, w.server.places);
    }
  }

  lemma ArrivedIsOk(w: World, a: Action)
    requires SessionInv(w) && Can(w, Serve(a)) && !a.Resume? && RequestOf(a) in Step(w.server, a).pending
    requires RequestOf(a) !in w.server.pending
    ensures PendingOk(After(w, Serve(a)), RequestOf(a), Step(w.server, a).pending[RequestOf(a)])
  {
    if a.Refresh? {
      RefreshedIsOk(w, a.req, a.token);
    } else {
      ArrivedElse(w.server, a);
    }
  }

  lemma ArrivedElse(s: Server, a: Action)
    requires Enabled(s, a) && !a.Resume? && !a.Refresh? && RequestOf(a) in Apply(s, a).pending
    requires RequestOf(a) !in s.pending
    ensures var q := Apply(s, a).pending[RequestOf(a)];
      && !q.RevokeFamily? && !q.LookUpReuse? && !IsRotation(q) && !q.RevokeUser?
      && (q.StorePassword? ==> a.ChangePassword? && q.user == a.user)
  {
  }

  lemma IdleCall(s: Server, a: Action)
    requires Enabled(s, a) && !a.Resume? && RequestOf(a) in s.pending
    ensures Step(s, a).pending == s.pending
  {
  }

  lemma ServeKeepsPending(w: World, a: Action)
    requires SessionInv(w) && Can(w, Serve(a))
    ensures forall r :: r in Step(w.server, a).pending ==>
        PendingOk(After(w, Serve(a)), r, Step(w.server, a).pending[r])
  {
    hide Apply;
    StepFrame(w.server, a);
    forall r | r in Step(w.server, a).pending
      ensures PendingOk(After(w, Serve(a)), r, Step(w.server, a).pending[r])
    {
      if r == RequestOf(a) && a.Resume? {
        ResumedIsOk(w, a.req, a.freshFamily, a.freshToken);
      } else if r == RequestOf(a) && r !in w.server.pending {
        ArrivedIsOk(w, a);
      } else if r == RequestOf(a) {
        IdleCall(w.server, a);
        PendingStaysOk(w, a, r);
      } else {
        PendingStaysOk(w, a, r);
      }
    }
  }

  lemma OwnersAfterIssue(w: World, req: string, f: string, k: string)
    requires SessionInv(w) && Can(w, Serve(Resume(req, f, k)))
        && (w.server.pending[req].IssueFirst? || w.server.pending[req].IssueNext?)
    ensures var v := After(w, Serve(Resume(req, f, k)));
      && (forall t :: t in v.server.rows && v.server.rows[t].family in v.families ==> v.server.rows[t].user in v.users)
      && (forall g :: g in v.families ==> g in v.server.chains)
  {
    assert PendingOk(w, req, w.server.pending[req]);
    assert req in w.page.logins ==> LoginOk(w, req);
    forall t | t in w.server.rows
      ensures w.server.rows[t].family in w.server.chains
    {
      assert RowOk(t, w.server.rows[t], w.server.chains, w.server.places);
    }
  }

  ghost predicate RowsKept(before: map<string, Row>, after: map<string, Row>) {
    forall k :: k in after ==> k in before && after[k].family == before[k].family && after[k].user == before[k].user
  }

  ghost predicate RowsFrom(s: Server, t: Server) {
    t.chains == s.chains && t.places == s.places && RowsKept(s.rows, t.rows)
  }

  lemma ContinueRowsFrom(s: Server, req: string, f: string, k: string)
    requires req in s.pending && !s.pending[req].IssueFirst? && !s.pending[req].IssueNext?
    ensures RowsFrom(s, Continue(s, req, f, k))
  {
    var t := Continue(s, req, f, k);
    match s.pending[req]
    case RevokeFamily(family) => assert t.rows == RevokeOfFamily(s.rows, family);
    case RevokeUser(user) => assert t.rows == RevokeOfUser(s.rows, user);
    case CreateUser(_) => assert t.rows == s.rows;
    case LoadUser(_, _, _) => assert t.rows == s.rows;
    case LookUpReuse(_) => assert t.rows == s.rows;
    case BumpVersion(_) => assert t.rows == s.rows;
    case StorePassword(_) => assert t.rows == s.rows;
  }

  lemma ApplyRowsFrom(s: Server, a: Action)
    requires Enabled(s, a) && !a.Resume?
    ensures RowsFrom(s, Apply(s, a))
  {
    var t := Apply(s, a);
    match a
    case LogoutAll(_, user) => assert t.rows == RevokeOfUser(s.rows, user);
    case Refresh(_, token) => assert t.rows == s.rows || (token in s.rows && t.rows == Consume(s, token).rows);
    case Logout(_, token) => assert t.rows == s.rows || (token in s.rows && t.rows == Consume(s, token).rows);
    case Sweep(token) => assert t.rows == s.rows - {token};
    case Register(_, _) => assert t.rows == s.rows;
    case Login(_, _, _) => assert t.rows == s.rows;
    case ChangePassword(_, _, _) => assert t.rows == s.rows;
    case SetStatus(_, _) => assert t.rows == s.rows;
    case Wait(_) => assert t.rows == s.rows;
  }

  /** Calls that do not issue create no row, and change neither owner nor family of one. */
  lemma RowsStayOwned(s: Server, a: Action)
    requires Enabled(s, a)
    requires a.Resume? ==> !s.pending[a.req].IssueFirst? && !s.pending[a.req].IssueNext?
    ensures RowsFrom(s, Step(s, a))
  {
    if a.Resume? {
      ContinueRowsFrom(s, a.req, a.freshFamily, a.freshToken);
    } else {
      ApplyRowsFrom(s, a);
    }
  }

  lemma ServeKeepsOutside(w: World, a: Action)
    requires SessionInv(w) && Can(w, Serve(a))
    ensures OutsideOk(After(w, Serve(a)))
  {
    hide Step;
    ServeKeepsPending(w, a);
    if a.Resume? && (w.server.pending[a.req].IssueFirst? || w.server.pending[a.req].IssueNext?) {
      OwnersAfterIssue(w, a.req, a.freshFamily, a.freshToken);
    } else {
      RowsStayOwned(w.server, a);
    }
  }

  /** Only the two issuing calls answer with a token, and it is the fresh one. */
  lemma NewAnswer(s: Server, a: Action, req: string)
    requires Enabled(s, a) && Separate(s)
    requires req in Step(s, a).replies && Step(s, a).replies[req].Issued?
    ensures (req in s.replies && Step(s, a).replies[req] == s.replies[req])
      || (a.Resume? && req == a.req && Step(s, a).replies[req].token == a.freshToken
          && a.freshToken in Step(s, a).places)
  {
    StepFrame(s, a);
    if req == RequestOf(a) && a.Resume? {
      ContinueAnswers(s, req, a.freshFamily, a.freshToken);
    } else if req == RequestOf(a) {
      StartAnswers(s, a);
    }
  }

  lemma ContinueAnswers(s: Server, req: string, f: string, k: string)
    requires req in s.pending && req !in s.replies
    requires req in Continue(s, req, f, k).replies && Continue(s, req, f, k).replies[req].Issued?
    ensures Continue(s, req, f, k).replies[req].token == k && k in Continue(s, req, f, k).places
  {
    match s.pending[req]
    case IssueFirst(_) =>
    case IssueNext(_, _, _) =>
    case _ => AnswersOnlyRefusals(s, req, f, k);
  }

  lemma AnswersOnlyRefusals(s: Server, req: string, f: string, k: string)
    requires req in s.pending && req !in s.replies && !s.pending[req].IssueFirst? && !s.pending[req].IssueNext?
    ensures req in Continue(s, req, f, k).replies ==> !Continue(s, req, f, k).replies[req].Issued?
  {
  }

  lemma StartAnswers(s: Server, a: Action)
    requires Enabled(s, a) && !a.Resume? && RequestOf(a) in Apply(s, a).replies
    requires Apply(s, a).replies[RequestOf(a)].Issued?
    ensures RequestOf(a) in s.replies && Apply(s, a).replies[RequestOf(a)] == s.replies[RequestOf(a)]
  {
  }

  lemma ServeKeepsAnswers(s: Server, a: Action)
    requires Enabled(s, a) && AnswersDistinct(s) && Separate(s)
    ensures AnswersDistinct(Step(s, a)) && Separate(Step(s, a))
  {
    hide Step;
    var t := Step(s, a);
    StepFrame(s, a);
    forall r | r in t.replies && t.replies[r].Issued?
      ensures t.replies[r].token in t.places
      ensures (r in s.replies && t.replies[r] == s.replies[r])
          || (a.Resume? && r == a.req && t.replies[r].token == a.freshToken)
    {
      NewAnswer(s, a, r);
    }
  }

  lemma ServeKeeps(w: World, a: Action)
    requires SessionInv(w) && Can(w, Serve(a))
    ensures SessionInv(After(w, Serve(a)))
  {
    hide Step;
    StepKeepsChains(w.server, a);
    ServeKeepsAnswers(w.server, a);
    ServeKeepsOutside(w, a);
    ServeKeepsPage(w, a);
  }

  // ----- The invariant under the page's own events -----

  lemma CallKeeps(w: World, e: Event)
    requires SessionInv(w) && Can(w, e) && (e.Call? || e.Timer?)
    ensures SessionInv(After(w, e))
  {
    var v := After(w, e);
    assert OutsideOk(v) by {
      forall r | r in v.server.pending
        ensures PendingOk(v, r, v.server.pending[r])
      {
        assert PendingOk(w, r, w.server.pending[r]);
      }
    }
    forall r | r in v.page.logins
      ensures LoginOk(v, r)
    {
      assert LoginOk(w, r);
    }
    forall r | r in v.page.refreshes
      ensures FlightOk(v, r)
    {
      if r in w.page.refreshes {
        assert FlightOk(w, r);
      }
    }
  }

  lemma SendKeeps(w: World, req: string, user: string)
    requires SessionInv(w) && Can(w, Send(req, user))
    ensures SessionInv(After(w, Send(req, user)))
  {
    var v := After(w, Send(req, user));
    forall r | r in v.server.pending
      ensures PendingOk(v, r, v.server.pending[r])
    {
      assert PendingOk(w, r, w.server.pending[r]);
    }
    forall r | r in v.page.refreshes
      ensures FlightOk(v, r)
    {
      assert FlightOk(w, r);
    }
    forall r | r in v.page.logins
      ensures LoginOk(v, r)
    {
      assert r == req || LoginOk(w, r);
    }
  }

  lemma SettleKeeps(w: World, e: Event)
    requires SessionInv(w) && Can(w, e) && (e.Answered? || e.RequestLost?)
    ensures SessionInv(After(w, e))
  {
    var v := After(w, e);
    assert FlightOk(w, e.req);
    forall r | r in v.server.pending
      ensures PendingOk(v, r, v.server.pending[r])
    {
      assert PendingOk(w, r, w.server.pending[r]);
    }
    forall r | r in v.page.logins
      ensures LoginOk(v, r)
    {
      assert LoginOk(w, r);
    }
  }

  lemma LoginAnsweredKeeps(w: World, req: string, timed: bool)
    requires SessionInv(w) && Can(w, LoginAnswered(req, timed))
    ensures SessionInv(After(w, LoginAnswered(req, timed)))
  {
    var v := After(w, LoginAnswered(req, timed));
    assert LoginOk(w, req);
    forall r | r in v.server.pending
      ensures PendingOk(v, r, v.server.pending[r])
    {
      assert PendingOk(w, r, w.server.pending[r]);
    }
    forall r | r in v.page.logins
      ensures LoginOk(v, r)
    {
      assert LoginOk(w, r);
    }
    forall r | r in v.page.refreshes
      ensures FlightOk(v, r)
    {
      assert FlightOk(w, r);
    }
  }

  lemma MicrotaskKeeps(w: World, req: string)
    requires SessionInv(w) && Can(w, Microtask(req))
    ensures SessionInv(After(w, Microtask(req)))
  {
    var v := After(w, Microtask(req));
    forall r | r in v.server.pending
      ensures PendingOk(v, r, v.server.pending[r])
    {
      assert PendingOk(w, r, w.server.pending[r]);
    }
    forall r | r in v.page.logins
      ensures LoginOk(v, r)
    {
      assert LoginOk(w, r);
    }
  }

  lemma EventKeeps(w: World, e: Event)
    requires SessionInv(w) && Can(w, e) && !e.ReplyLost?
    ensures SessionInv(After(w, e))
  {
    match e
    case Call(_) => CallKeeps(w, e);
    case Timer(_) => CallKeeps(w, e);
    case Send(req, user) => SendKeeps(w, req, user);
    case Serve(a) => ServeKeeps(w, a);
    case Answered(_, _, _) => SettleKeeps(w, e);
    case RequestLost(_) => SettleKeeps(w, e);
    case LoginAnswered(req, timed) => LoginAnsweredKeeps(w, req, timed);
    case Microtask(req) => MicrotaskKeeps(w, req);
  }

  lemma {:induction false} RunKeeps(w: World, run: seq<Event>, v: World)
    requires SessionInv(w) && Leads(w, run, v) && Delivered(run)
    ensures SessionInv(v)
    decreases |run|
  {
    if run != [] {
      assert !run[0].ReplyLost?;
      EventKeeps(w, run[0]);
      assert Delivered(run[1..]) by {
        forall i | 0 <= i < |run[1..]|
          ensures !run[1..][i].ReplyLost?
        {
          assert run[1..][i] == run[i + 1];
        }
      }
      RunKeeps(After(w, run[0]), run[1..], v);
    }
  }

  // ----- Theorems -----

  lemma {:induction false} GateOnEveryRun(w: World, run: seq<Event>, v: World)
    requires GateOk(w.page) && Leads(w, run, v)
    ensures GateOk(v.page)
    decreases |run|
  {
    if run != [] {
      GateKept(w, run[0]);
      hide GateOk, Can, After;
      GateOnEveryRun(After(w, run[0]), run[1..], v);
    }
  }

  lemma GateKept(w: World, e: Event)
    requires GateOk(w.page) && Can(w, e)
    ensures GateOk(After(w, e).page)
  {
    hide Enabled, Step;
  }

  /**
   On every run, also when answers get lost: at most one refresh is outstanding, its promise is the
   one in the slot, and the slot is only ever cleared when nothing is outstanding.
   */
  lemma SingleFlight(run: seq<Event>, w: World)
    requires Leads(START, run, w)
    ensures |w.page.refreshes| <= 1
    ensures forall r :: r in w.page.refreshes ==> r == w.page.slot
    ensures forall e :: Can(w, e) && w.page.slot != "" && After(w, e).page.slot == "" ==> w.page.refreshes == map[]
  {
    GateOnEveryRun(START, run, w);
    if w.page.refreshes != map[] {
      assert |w.page.refreshes| == |w.page.refreshes.Keys|;
    }
  }

  /** Whenever a refresh may start, the cookie is empty or names a token of this page's own session that is
      not spent; if the database still has it, it is the newest of its family. */
  lemma CookieNamesLiveToken(run: seq<Event>, w: World)
    requires Leads(START, run, w) && Delivered(run) && w.page.slot == "" && w.page.cookie != ""
    ensures Mine(w, w.page.cookie)
    ensures w.page.cookie in w.server.rows ==>
      var row := w.server.rows[w.page.cookie];
      && !row.isRevoked
      && row.user in w.users
      && row.family in w.server.chains && |w.server.chains[row.family]| > 0
      && w.page.cookie == Newest(w.server.chains[row.family])
  {
    RunKeeps(START, run, w);
    if w.page.cookie in w.server.rows {
      assert RowOk(w.page.cookie, w.server.rows[w.page.cookie], w.server.chains, w.server.places);
    }
  }

  /** The server finds a reuse, in a request of the page or against one of the page's families. */
  predicate FiresReuse(w: World, e: Event) {
    && e.Serve? && e.call.Resume?
    && e.call.req in w.server.pending && w.server.pending[e.call.req].LookUpReuse?
    && var token := w.server.pending[e.call.req].token;
       && token in w.server.rows && w.server.rows[token].isRevoked
       && (e.call.req in w.page.refreshes || w.server.rows[token].family in w.families)
  }

  /** On every run whose answers are delivered, reuse detection never strikes this page. */
  lemma ReuseNeverFires(run: seq<Event>, w: World, e: Event)
    requires Leads(START, run, w) && Delivered(run) && Can(w, e)
    ensures !FiresReuse(w, e)
    ensures forall r :: r in w.page.refreshes && r in w.server.replies ==> w.server.replies[r] != Refused(true)
    ensures forall r :: r in w.server.pending && w.server.pending[r].RevokeFamily? ==>
        w.server.pending[r].family !in w.families
  {
    RunKeeps(START, run, w);
    forall r | r in w.page.refreshes && r in w.server.replies
      ensures w.server.replies[r] != Refused(true)
    {
      assert FlightOk(w, r);
    }
    forall r | r in w.server.pending && w.server.pending[r].RevokeFamily?
      ensures w.server.pending[r].family !in w.families
    {
      assert PendingOk(w, r, w.server.pending[r]);
    }
    if FiresReuse(w, e) {
      FoundReuseIsForeign(w, e.call.req);
    }
  }
}

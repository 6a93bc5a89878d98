/**
 What each request comes to, on any run: from its first call, through whatever other requests do in between,
 to its answer.
 */
module RequestOutcomes {
  import opened RefreshTokens
  import AccessTokens
  import SessionFamilies

  // ----- One request among the others -----

  /** How far a request has come. */
  datatype Stage = Unknown | Ahead(next: Request) | Answered(reply: Reply)

  function StageOf(s: Server, req: string): Stage {
    if req in s.pending then Ahead(s.pending[req])
    else if req in s.replies then Answered(s.replies[req])
    else Unknown
  }

  predicate Resumes(a: Action, req: string) {
    a.Resume? && a.req == req
  }

  lemma AnswerLeaves(s: Server, r: string, reply: Reply, req: string)
    requires r != req
    ensures StageOf(Answer(s, r, reply), req) == StageOf(s, req)
  {
  }

  lemma AwaitLeaves(s: Server, r: string, next: Request, req: string)
    requires r != req
    ensures StageOf(Await(s, r, next), req) == StageOf(s, req)
  {
  }

  lemma IssueLeaves(s: Server, r: string, read: UserRead, family: string, parent: string, token: string, req: string)
    requires r != req
    ensures StageOf(Issue(s, r, read, family, parent, token), req) == StageOf(s, req)
  {
  }

  lemma SameStage(s: Server, t: Server, req: string)
    requires t.pending == s.pending && t.replies == s.replies
    ensures StageOf(t, req) == StageOf(s, req)
  {
  }

  lemma ResumingOthers(s: Server, r: string, freshFamily: string, freshToken: string, req: string)
    requires r in s.pending && r != req
    ensures StageOf(Continue(s, r, freshFamily, freshToken), req) == StageOf(s, req)
  {
    hide RevokeOfFamily, RevokeOfUser, Answer, Await, Issue, StageOf;
    match s.pending[r]
    case CreateUser(user) =>
      var t := s.(users := s.users[user := User(1, false)]);
      SameStage(s, t, req);
      AnswerLeaves(s, r, Refused(false), req);
      AwaitLeaves(t, r, IssueFirst(UserRead(user, 1, s.clock)), req);
    case IssueFirst(read) => IssueLeaves(s, r, read, freshFamily, "", freshToken, req);
    case IssueNext(read, family, parent) => IssueLeaves(s, r, read, family, parent, freshToken, req);
    case LoadUser(user, family, parent) =>
      AnswerLeaves(s, r, Refused(false), req);
      if user in s.users {
        AwaitLeaves(s, r, IssueNext(ReadUser(s, user), family, parent), req);
      }
    case LookUpReuse(token) =>
      AnswerLeaves(s, r, Refused(false), req);
      if token in s.rows {
        AwaitLeaves(s, r, RevokeFamily(s.rows[token].family), req);
      }
    case RevokeFamily(family) =>
      SameStage(s, s.(rows := RevokeOfFamily(s.rows, family)), req);
      AnswerLeaves(s.(rows := RevokeOfFamily(s.rows, family)), r, Refused(true), req);
    case RevokeUser(user) =>
      SameStage(s, s.(rows := RevokeOfUser(s.rows, user)), req);
      AnswerLeaves(s.(rows := RevokeOfUser(s.rows, user)), r, Done, req);
    case BumpVersion(user) =>
      AnswerLeaves(s, r, Refused(false), req);
      if user in s.users {
        SameStage(s, Bump(s, user), req);
        AnswerLeaves(Bump(s, user), r, Done, req);
      }
    case StorePassword(user) =>
      AnswerLeaves(s, r, Refused(false), req);
      if user in s.users {
        SameStage(s, Bump(s, user), req);
        AwaitLeaves(Bump(s, user), r, RevokeUser(user), req);
      }
  }

  lemma StartingOthers(s: Server, a: Action, req: string)
    requires Enabled(s, a) && !a.Resume? && StageOf(s, req) != Unknown
    ensures StageOf(Apply(s, a), req) == StageOf(s, req)
  {
    var t := Apply(s, a);
    assert a.Register? || a.Login? || a.Refresh? || a.Logout? || a.LogoutAll? || a.ChangePassword? ==> a.req != req;
    hide RevokeOfUser, NewToken, Answer, Await, StageOf, Enabled, Consumable;
    match a
    case Register(r, user) => AnswerLeaves(s, r, Refused(false), req); AwaitLeaves(s, r, CreateUser(user), req);
    case Login(r, user, _) =>
      AnswerLeaves(s, r, Refused(false), req);
      if user in s.users {
        AwaitLeaves(s, r, IssueFirst(ReadUser(s, user)), req);
      }
    case Refresh(r, token) =>
      AnswerLeaves(s, r, Refused(false), req);
      AwaitLeaves(s, r, LookUpReuse(token), req);
      if token in s.rows {
        SameStage(s, Consume(s, token), req);
        AwaitLeaves(Consume(s, token), r, LoadUser(s.rows[token].user, s.rows[token].family, token), req);
      }
      assert Consumable(s, token) ==> token in s.rows by {
        ConsumableIsStored(s, token);
      }
    case Logout(r, token) =>
      AnswerLeaves(s, r, Done, req);
      if token in s.rows {
        SameStage(s, Consume(s, token), req);
        AnswerLeaves(Consume(s, token), r, Done, req);
      }
    case LogoutAll(r, user) =>
      SameStage(s, s.(rows := RevokeOfUser(s.rows, user)), req);
      AwaitLeaves(s.(rows := RevokeOfUser(s.rows, user)), r, BumpVersion(user), req);
    case ChangePassword(r, user, _) =>
      AnswerLeaves(s, r, Refused(false), req);
      AwaitLeaves(s, r, StorePassword(user), req);
    case Resume(_, _, _) =>
    case _ => SameStage(s, t, req);
  }

  lemma ConsumableIsStored(s: Server, token: string)
    ensures Consumable(s, token) ==> token in s.rows
  {
  }

  /** Nobody else moves a request. */
  lemma OthersLeave(s: Server, a: Action, req: string)
    requires Enabled(s, a) && StageOf(s, req) != Unknown && !Resumes(a, req)
    ensures StageOf(Step(s, a), req) == StageOf(s, req)
  {
    if a.Resume? {
      ResumingOthers(s, a.req, a.freshFamily, a.freshToken, req);
    } else {
      StartingOthers(s, a, req);
    }
    hide Apply, Enabled, StageOf;
    SameStage(Apply(s, a), Step(s, a), req);
  }

  lemma {:induction false} AnswerIsFinal(s: Server, run: seq<Action>, t: Server, req: string)
    requires Leads(s, run, t) && StageOf(s, req).Answered?
    ensures StageOf(t, req) == StageOf(s, req)
    decreases |run|
  {
    if run != [] {
      OthersLeave(s, run[0], req);
      hide Step, Enabled, StageOf;
      AnswerIsFinal(Step(s, run[0]), run[1..], t, req);
    }
  }

  // ----- Suspended accounts -----

  /** The account is suspended, or there is none. */
  predicate Barred(s: Server, user: string) {
    user !in s.users || s.users[user].suspended
  }

  ghost predicate StaysBarred(s: Server, run: seq<Action>, user: string)
    decreases |run|
  {
    Barred(s, user) && (run == [] || (Enabled(s, run[0]) && StaysBarred(Step(s, run[0]), run[1..], user)))
  }

  ghost predicate StaysActive(s: Server, run: seq<Action>, user: string)
    decreases |run|
  {
    !Barred(s, user) && (run == [] || (Enabled(s, run[0]) && StaysActive(Step(s, run[0]), run[1..], user)))
  }

  predicate Holds(q: Request, user: string) {
    (q.IssueFirst? || q.IssueNext?) && q.read.user == user
  }

  /** No request has read the account and is about to issue. */
  ghost predicate NoneHolds(s: Server, user: string) {
    forall r :: r in s.pending ==> !Holds(s.pending[r], user)
  }

  /** No token for the account has come since `s`, and no answer that gives one. */
  ghost predicate NothingFor(s: Server, t: Server, user: string) {
    && (forall x :: x in t.signed && x.user == user ==> x in s.signed)
    && (forall k :: k in t.rows && t.rows[k].user == user ==> k in s.rows && s.rows[k].user == user)
    && (forall r :: r in t.replies && t.replies[r].Issued? && t.replies[r].access.user == user ==>
          r in s.replies && s.replies[r] == t.replies[r])
  }

  lemma AnswerBarred(s: Server, t: Server, req: string, reply: Reply, user: string)
    requires NoneHolds(s, user) && NothingFor(s, t, user) && t.pending == s.pending && t.replies == s.replies
    requires !reply.Issued?
    ensures NoneHolds(Answer(t, req, reply), user) && NothingFor(s, Answer(t, req, reply), user)
  {
  }

  lemma AwaitBarred(s: Server, t: Server, req: string, next: Request, user: string)
    requires NoneHolds(s, user) && NothingFor(s, t, user) && t.pending == s.pending && !Holds(next, user)
    ensures NoneHolds(Await(t, req, next), user) && NothingFor(s, Await(t, req, next), user)
  {
  }

  lemma IssueBarred(s: Server, req: string, read: UserRead, family: string, parent: string, token: string, user: string)
    requires NoneHolds(s, user) && read.user != user
    ensures NoneHolds(Issue(s, req, read, family, parent, token), user)
    ensures NothingFor(s, Issue(s, req, read, family, parent, token), user)
  {
  }

  /** Only revocations, and users other than `user` that come or change their version. */
  lemma RowsBarred(s: Server, t: Server, user: string)
    requires t.signed == s.signed && t.replies == s.replies
    requires forall k :: k in t.rows ==> k in s.rows && t.rows[k].user == s.rows[k].user
    ensures NothingFor(s, t, user)
  {
  }

  lemma RevokedRowsBarred(s: Server, family: string, u: string, user: string)
    ensures NothingFor(s, s.(rows := RevokeOfFamily(s.rows, family)), user)
    ensures NothingFor(s, s.(rows := RevokeOfUser(s.rows, u)), user)
  {
    RowsBarred(s, s.(rows := RevokeOfFamily(s.rows, family)), user);
    RowsBarred(s, s.(rows := RevokeOfUser(s.rows, u)), user);
  }

  lemma RevocationBarred(s: Server, req: string, freshFamily: string, freshToken: string, user: string)
    requires req in s.pending && NoneHolds(s, user) && var q := s.pending[req];
      q.RevokeFamily? || q.RevokeUser? || q.BumpVersion? || q.StorePassword?
    ensures NoneHolds(Continue(s, req, freshFamily, freshToken), user)
    ensures NothingFor(s, Continue(s, req, freshFamily, freshToken), user)
  {
    RowsBarred(s, s, user);
    hide NoneHolds, NothingFor, Answer, Await, RevokeOfFamily, RevokeOfUser;
    match s.pending[req]
    case RevokeFamily(family) =>
      RevokedRowsBarred(s, family, "", user);
      AnswerBarred(s, s.(rows := RevokeOfFamily(s.rows, family)), req, Refused(true), user);
    case RevokeUser(u) =>
      RevokedRowsBarred(s, "", u, user);
      AnswerBarred(s, s.(rows := RevokeOfUser(s.rows, u)), req, Done, user);
    case BumpVersion(u) =>
      AnswerBarred(s, s, req, Refused(false), user);
      if u in s.users {
        RowsBarred(s, Bump(s, u), user);
        AnswerBarred(s, Bump(s, u), req, Done, user);
      }
    case StorePassword(u) =>
      AnswerBarred(s, s, req, Refused(false), user);
      if u in s.users {
        RowsBarred(s, Bump(s, u), user);
        AwaitBarred(s, Bump(s, u), req, RevokeUser(u), user);
      }
  }

  lemma ContinueBarred(s: Server, req: string, freshFamily: string, freshToken: string, user: string)
    requires req in s.pending && Barred(s, user) && NoneHolds(s, user)
    requires Barred(Continue(s, req, freshFamily, freshToken), user)
    ensures NoneHolds(Continue(s, req, freshFamily, freshToken), user)
    ensures NothingFor(s, Continue(s, req, freshFamily, freshToken), user)
  {
    assert !Holds(s.pending[req], user);
    RowsBarred(s, s, user);
    hide NoneHolds, NothingFor, Issue, Answer, Await, RevokeOfFamily, RevokeOfUser;
    match s.pending[req]
    case CreateUser(u) =>
      AnswerBarred(s, s, req, Refused(false), user);
      if u !in s.users {
        var t := s.(users := s.users[u := User(1, false)]);
        RowsBarred(s, t, user);
        AwaitBarred(s, t, req, IssueFirst(UserRead(u, 1, s.clock)), user);
      }
    case IssueFirst(read) => IssueBarred(s, req, read, freshFamily, "", freshToken, user);
    case IssueNext(read, family, parent) => IssueBarred(s, req, read, family, parent, freshToken, user);
    case LoadUser(u, family, parent) =>
      AnswerBarred(s, s, req, Refused(false), user);
      if !Barred(s, u) {
        AwaitBarred(s, s, req, IssueNext(ReadUser(s, u), family, parent), user);
      }
    case LookUpReuse(token) =>
      AnswerBarred(s, s, req, Refused(false), user);
      if token in s.rows {
        AwaitBarred(s, s, req, RevokeFamily(s.rows[token].family), user);
      }
    case _ => RevocationBarred(s, req, freshFamily, freshToken, user);
  }

  lemma StepBarred(s: Server, a: Action, user: string)
    requires Enabled(s, a) && Barred(s, user) && NoneHolds(s, user) && Barred(Step(s, a), user)
    ensures NoneHolds(Step(s, a), user) && NothingFor(s, Step(s, a), user)
  {
    hide Continue, NewToken;
    RowsBarred(s, s, user);
    if a.Resume? {
      ContinueBarred(s, a.req, a.freshFamily, a.freshToken, user);
    } else {
      StartBarred(s, a, user);
    }
  }

  lemma StartBarred(s: Server, a: Action, user: string)
    requires Enabled(s, a) && !a.Resume? && Barred(s, user) && NoneHolds(s, user)
    ensures NoneHolds(Apply(s, a), user) && NothingFor(s, Apply(s, a), user)
  {
    RowsBarred(s, s, user);
    hide NoneHolds, NothingFor, NewToken, Answer, Await;
    match a
    case Register(req, u) =>
      AnswerBarred(s, s, req, Refused(false), user);
      AwaitBarred(s, s, req, CreateUser(u), user);
    case Login(req, u, _) =>
      AnswerBarred(s, s, req, Refused(false), user);
      if !Barred(s, u) {
        AwaitBarred(s, s, req, IssueFirst(ReadUser(s, u)), user);
      }
    case Refresh(req, token) =>
      AnswerBarred(s, s, req, Refused(false), user);
      AwaitBarred(s, s, req, LookUpReuse(token), user);
      if token in s.rows {
        RowsBarred(s, Consume(s, token), user);
        AwaitBarred(s, Consume(s, token), req, LoadUser(s.rows[token].user, s.rows[token].family, token), user);
      }
    case Logout(req, token) =>
      AnswerBarred(s, s, req, Done, user);
      if token in s.rows {
        RowsBarred(s, Consume(s, token), user);
        AnswerBarred(s, Consume(s, token), req, Done, user);
      }
    case LogoutAll(req, u) =>
      RowsBarred(s, s.(rows := RevokeOfUser(s.rows, u)), user);
      AwaitBarred(s, s.(rows := RevokeOfUser(s.rows, u)), req, BumpVersion(u), user);
    case ChangePassword(req, u, _) =>
      AnswerBarred(s, s, req, Refused(false), user);
      AwaitBarred(s, s, req, StorePassword(u), user);
    case _ => OutsideBarred(s, a, user);
  }

  lemma OutsideBarred(s: Server, a: Action, user: string)
    requires Enabled(s, a) && NoneHolds(s, user) && (a.SetStatus? || a.Sweep? || a.Wait?)
    ensures NoneHolds(Apply(s, a), user) && NothingFor(s, Apply(s, a), user)
  {
  }

  lemma {:induction false} RunBarred(s: Server, run: seq<Action>, t: Server, user: string)
    requires Leads(s, run, t) && StaysBarred(s, run, user) && NoneHolds(s, user)
    ensures NothingFor(s, t, user) && NoneHolds(t, user)
    decreases |run|
  {
    if run != [] {
      hide Step, Enabled, NoneHolds, Barred;
      assert StaysBarred(Step(s, run[0]), run[1..], user);
      StepBarred(s, run[0], user);
      RunBarred(Step(s, run[0]), run[1..], t, user);
    }
  }

  /** A rotation for an account that stays barred is refused, if it is answered at all. */
  lemma {:induction false} BarredRotation(s: Server, run: seq<Action>, t: Server, req: string, user: string)
    requires Leads(s, run, t) && StaysBarred(s, run, user)
    requires RotationStops(StageOf(s, req), user)
    ensures RotationStops(StageOf(t, req), user)
    decreases |run|
  {
    if run != [] {
      if !Resumes(run[0], req) {
        OthersLeave(s, run[0], req);
      }
      assert RotationStops(StageOf(Step(s, run[0]), req), user);
      hide Step, Enabled, StageOf, RotationStops;
      BarredRotation(Step(s, run[0]), run[1..], t, req, user);
    }
  }

  predicate RotationStops(stage: Stage, user: string) {
    (stage.Ahead? && stage.next.LoadUser? && stage.next.user == user) || stage == Answered(Refused(false))
  }

  /**
   As long as an account is suspended or absent, and no request has read it before that: no access token is
   signed for it, no refresh token stored, no answer gives one, and every rotation for it that is answered is
   refused.
   */
  lemma BarredAccountGetsNothing(s: Server, run: seq<Action>, t: Server, user: string)
    requires Leads(s, run, t) && StaysBarred(s, run, user) && NoneHolds(s, user)
    ensures forall x :: x in t.signed && x.user == user ==> x in s.signed
    ensures forall k :: k in t.rows && t.rows[k].user == user ==> k in s.rows && s.rows[k].user == user
    ensures forall r :: r in t.replies && t.replies[r].Issued? && t.replies[r].access.user == user ==>
      r in s.replies && s.replies[r] == t.replies[r]
    ensures forall r :: r in s.pending && s.pending[r].LoadUser? && s.pending[r].user == user && r !in t.pending ==>
      r in t.replies && t.replies[r] == Refused(false)
  {
    RunBarred(s, run, t, user);
    forall r | r in s.pending && s.pending[r].LoadUser? && s.pending[r].user == user && r !in t.pending
      ensures r in t.replies && t.replies[r] == Refused(false)
    {
      BarredRotation(s, run, t, r, user);
    }
  }

  // ----- What stays of an issued and of a revoked token -----

  /** The token was issued in `family` for `parent`. */
  predicate Linked(s: Server, token: string, parent: string, family: string) {
    && token in s.places && s.places[token].family == family && family in s.chains
    && s.places[token].index < |s.chains[family]|
    && s.chains[family][s.places[token].index] == Link(token, parent)
  }

  /** The token was issued, and cannot be exchanged: it is revoked, or removed. */
  predicate Spent(s: Server, token: string) {
    token in s.places && (token in s.rows ==> s.rows[token].isRevoked)
  }

  /** The token was issued, and what row it has is of the user. */
  predicate Owned(s: Server, token: string, user: string) {
    token in s.places && (token in s.rows ==> s.rows[token].user == user)
  }

  /** An answer that gives tokens: both are recorded, the new one for the account and in its place. */
  predicate Given(s: Server, access: UserRead, token: string, parent: string, family: string) {
    access in s.signed && Owned(s, token, access.user) && Linked(s, token, parent, family)
  }

  /** The row is as it was, or revoked since. */
  predicate RowStays(before: Row, after: Row) {
    after == before || after == before.(isRevoked := true)
  }

  /** Tokens keep their places and chains their beginnings; rows of tokens that are out are revoked or removed only. */
  ghost predicate Grows(s: Server, t: Server) {
    && (forall k :: k in s.places ==> k in t.places && t.places[k] == s.places[k])
    && (forall k :: k in s.places && k in t.rows ==> k in s.rows && RowStays(s.rows[k], t.rows[k]))
    && (forall f :: f in s.chains ==> f in t.chains && s.chains[f] <= t.chains[f])
    && s.signed <= t.signed
  }

  lemma IssueGrows(s: Server, req: string, read: UserRead, family: string, parent: string, token: string)
    requires NewToken(s, token)
    ensures Grows(s, Issue(s, req, read, family, parent, token))
  {
  }

  lemma RevokingGrows(s: Server, t: Server)
    requires t.places == s.places && t.chains == s.chains && t.signed == s.signed
    requires forall k :: k in t.rows ==> k in s.rows && RowStays(s.rows[k], t.rows[k])
    ensures Grows(s, t)
  {
  }

  lemma SameRowsGrow(s: Server, t: Server)
    requires t.places == s.places && t.chains == s.chains && t.signed == s.signed && t.rows == s.rows
    ensures Grows(s, t)
  {
  }

  lemma RevokedGrows(s: Server, t: Server, family: string, user: string)
    requires t.places == s.places && t.chains == s.chains && t.signed == s.signed
    requires t.rows == RevokeOfFamily(s.rows, family) || t.rows == RevokeOfUser(s.rows, user)
    ensures Grows(s, t)
  {
  }

  lemma ContinueGrows(s: Server, req: string, freshFamily: string, freshToken: string)
    requires Enabled(s, Resume(req, freshFamily, freshToken))
    ensures Grows(s, Continue(s, req, freshFamily, freshToken))
  {
    hide Grows, NewToken, RevokeOfFamily, RevokeOfUser, Issue, ReadUser;
    var t := Continue(s, req, freshFamily, freshToken);
    match s.pending[req]
    case IssueFirst(read) => IssueGrows(s, req, read, freshFamily, "", freshToken);
    case IssueNext(read, family, parent) => IssueGrows(s, req, read, family, parent, freshToken);
    case RevokeFamily(family) => RevokedGrows(s, t, family, "");
    case RevokeUser(user) => RevokedGrows(s, t, "", user);
    case _ => SameRowsGrow(s, t);
  }

  lemma ConsumedGrows(s: Server, t: Server, token: string)
    requires t.places == s.places && t.chains == s.chains && t.signed == s.signed
    requires t.rows == s.rows || (token in s.rows && t.rows == s.rows[token := s.rows[token].(isRevoked := true)])
    ensures Grows(s, t)
  {
  }

  lemma StartGrows(s: Server, a: Action)
    requires Enabled(s, a) && !a.Resume?
    ensures Grows(s, Apply(s, a))
  {
    hide Grows, NewToken, RevokeOfUser, ReadUser;
    var t := Apply(s, a);
    match a
    case LogoutAll(_, user) => RevokedGrows(s, t, "", user);
    case Refresh(_, token) => ConsumedGrows(s, t, token);
    case Logout(_, token) => ConsumedGrows(s, t, token);
    case Sweep(_) => RevokingGrows(s, t);
    case _ => SameRowsGrow(s, t);
  }

  lemma StepGrows(s: Server, a: Action)
    requires Enabled(s, a)
    ensures Grows(s, Step(s, a)) && s.clock < Step(s, a).clock
  {
    if a.Resume? {
      ContinueGrows(s, a.req, a.freshFamily, a.freshToken);
    } else {
      StartGrows(s, a);
    }
    hide Grows, Apply, Enabled;
    TimeGrows(s, Apply(s, a), Step(s, a).clock);
  }

  lemma TimeGrows(s: Server, t: Server, clock: nat)
    requires Grows(s, t)
    ensures Grows(s, t.(clock := clock))
  {
  }

  lemma GrowsOn(s: Server, t: Server, u: Server)
    requires Grows(s, t) && Grows(t, u)
    ensures Grows(s, u)
  {
    forall k | k in s.places && k in u.rows
      ensures k in s.rows && RowStays(s.rows[k], u.rows[k])
    {
      assert k in t.places && k in t.rows;
    }
  }

  lemma {:induction false} RunGrows(s: Server, run: seq<Action>, t: Server)
    requires Leads(s, run, t)
    ensures Grows(s, t) && s.clock <= t.clock
    decreases |run|
  {
    if run != [] {
      StepGrows(s, run[0]);
      hide Step, Enabled, Grows;
      RunGrows(Step(s, run[0]), run[1..], t);
      GrowsOn(s, Step(s, run[0]), t);
    } else {
      StaysGrown(s);
    }
  }

  lemma StaysGrown(s: Server)
    ensures Grows(s, s)
  {
  }

  // ----- Logging in and registering -----

  /** What a request that is about to issue the first token of a family comes to. */
  predicate Issuing(s: Server, req: string, read: UserRead) {
    match StageOf(s, req)
    case Ahead(IssueFirst(r)) => r == read
    case Answered(Issued(access, token)) =>
      access == read && token in s.places && Given(s, access, token, "", s.places[token].family)
    case _ => false
  }

  lemma StepIssuing(s: Server, a: Action, req: string, read: UserRead)
    requires Enabled(s, a) && Issuing(s, req, read)
    ensures Issuing(Step(s, a), req, read)
  {
    StepGrows(s, a);
    if Resumes(a, req) {
      assert s.pending[req] == IssueFirst(read);
    } else {
      OthersLeave(s, a, req);
    }
  }

  lemma {:induction false} RunIssuing(s: Server, run: seq<Action>, t: Server, req: string, read: UserRead)
    requires Leads(s, run, t) && Issuing(s, req, read)
    ensures Issuing(t, req, read)
    decreases |run|
  {
    if run != [] {
      StepIssuing(s, run[0], req, read);
      hide Step, Enabled, Issuing;
      RunIssuing(Step(s, run[0]), run[1..], t, req, read);
    }
  }

  /**
   A login, on any run: with the right password for an account that is there and not suspended it ends, if it
   is answered, in a token that starts a family, and an access token with the version of that moment. In every
   other case it is refused at once, and nothing but its answer changes.
   */
  lemma LoginOutcome(s: Server, req: string, user: string, passwordOk: bool, run: seq<Action>, t: Server)
    requires Enabled(s, Login(req, user, passwordOk)) && Leads(Step(s, Login(req, user, passwordOk)), run, t)
    ensures var good := passwordOk && user in s.users && !s.users[user].suspended;
      && (good ==> var v := s.users[user].tokenVersion;
                   Issuing(t, req, UserRead(user, if v == 0 then 1 else v, s.clock)))
      && (!good ==> StageOf(t, req) == Answered(Refused(false)))
    ensures var u := Step(s, Login(req, user, passwordOk));
      u.users == s.users && u.rows == s.rows && u.signed == s.signed && u.places == s.places
  {
    var u := Step(s, Login(req, user, passwordOk));
    if passwordOk && user in s.users && !s.users[user].suspended {
      var v := s.users[user].tokenVersion;
      RunIssuing(u, run, t, req, UserRead(user, if v == 0 then 1 else v, s.clock));
    } else {
      AnswerIsFinal(u, run, t, req);
    }
  }

  /** A registration that found the address free: it may still lose it to another one. */
  predicate Registering(s: Server, req: string, user: string) {
    match StageOf(s, req)
    case Ahead(CreateUser(u)) => u == user
    case Ahead(IssueFirst(read)) => read.user == user && read.tokenVersion == 1
    case Answered(Issued(access, token)) =>
      access.user == user && access.tokenVersion == 1 && token in s.places
      && Given(s, access, token, "", s.places[token].family)
    case Answered(Refused(reuse)) => !reuse && user in s.users
    case _ => false
  }

  lemma StepRegistering(s: Server, a: Action, req: string, user: string)
    requires Enabled(s, a) && Registering(s, req, user)
    ensures Registering(Step(s, a), req, user)
  {
    StepGrows(s, a);
    UsersStay(s, a);
    if Resumes(a, req) {
      ResumedRegistration(s, a, req, user);
    } else {
      OthersLeave(s, a, req);
    }
  }

  lemma ResumedRegistration(s: Server, a: Action, req: string, user: string)
    requires Enabled(s, a) && Registering(s, req, user) && Resumes(a, req)
    ensures Registering(Step(s, a), req, user)
  {
    assert s.pending[req].CreateUser? || s.pending[req].IssueFirst?;
  }

  /** Accounts are not removed, and their versions do not fall. */
  lemma UsersStay(s: Server, a: Action)
    requires Enabled(s, a)
    ensures AccessTokens.UsersGrow(s.users, Step(s, a).users)
  {
    hide NewToken, RevokeOfFamily, RevokeOfUser, Continue;
    if a.Resume? {
      ContinueUsers(s, a.req, a.freshFamily, a.freshToken);
    }
  }

  lemma ContinueUsers(s: Server, req: string, freshFamily: string, freshToken: string)
    requires req in s.pending
    ensures AccessTokens.UsersGrow(s.users, Continue(s, req, freshFamily, freshToken).users)
  {
    hide RevokeOfFamily, RevokeOfUser, AccessTokens.UsersGrow;
    SameUsers(s.users);
    match s.pending[req]
    case CreateUser(user) => MoreUsers(s.users, user);
    case BumpVersion(user) => MoreUsers(s.users, user);
    case StorePassword(user) => MoreUsers(s.users, user);
    case _ =>
  }

  lemma SameUsers(users: map<string, User>)
    ensures AccessTokens.UsersGrow(users, users)
  {
  }

  lemma MoreUsers(users: map<string, User>, user: string)
    ensures user !in users ==> AccessTokens.UsersGrow(users, users[user := User(1, false)])
    ensures user in users ==>
      AccessTokens.UsersGrow(users, users[user := users[user].(tokenVersion := users[user].tokenVersion + 1)])
  {
  }

  lemma {:induction false} RunRegistering(s: Server, run: seq<Action>, t: Server, req: string, user: string)
    requires Leads(s, run, t) && Registering(s, req, user)
    ensures Registering(t, req, user)
    decreases |run|
  {
    if run != [] {
      StepRegistering(s, run[0], req, user);
      hide Step, Enabled, Registering;
      RunRegistering(Step(s, run[0]), run[1..], t, req, user);
    }
  }

  /** A registration ends in the first token of a new account, or the address was taken: at once, or since. */
  lemma RegistrationOutcome(s: Server, req: string, user: string, run: seq<Action>, t: Server)
    requires Enabled(s, Register(req, user)) && Leads(Step(s, Register(req, user)), run, t)
    ensures if user in s.users then StageOf(t, req) == Answered(Refused(false)) else Registering(t, req, user)
  {
    var u := Step(s, Register(req, user));
    if user in s.users {
      AnswerIsFinal(u, run, t, req);
    } else {
      RunRegistering(u, run, t, req, user);
    }
  }

  // ----- Refreshing -----

  /** A stored token that is neither revoked nor expired. */
  predicate Usable(s: Server, token: string) {
    token != "" && token in s.rows && !s.rows[token].isRevoked && s.clock < s.rows[token].expiresAt
  }

  /** A rotation of `token`, whose row was `row`, since the time `after`. */
  predicate Rotating(s: Server, req: string, token: string, row: Row, after: nat) {
    after < s.clock &&
    match StageOf(s, req)
    case Ahead(LoadUser(user, family, parent)) => user == row.user && family == row.family && parent == token
    case Ahead(IssueNext(read, family, parent)) =>
      read.user == row.user && after < read.readAt && family == row.family && parent == token
    case Answered(Issued(access, next)) =>
      access.user == row.user && after < access.readAt && Given(s, access, next, token, row.family)
    case Answered(Refused(reuse)) => !reuse
    case _ => false
  }

  lemma ResumedRotation(s: Server, a: Action, req: string, token: string, row: Row, after: nat)
    requires Enabled(s, a) && Resumes(a, req) && Rotating(s, req, token, row, after)
    ensures Rotating(Step(s, a), req, token, row, after)
  {
    assert s.pending[req].LoadUser? || s.pending[req].IssueNext?;
  }

  lemma StepRotating(s: Server, a: Action, req: string, token: string, row: Row, after: nat)
    requires Enabled(s, a) && Rotating(s, req, token, row, after)
    ensures Rotating(Step(s, a), req, token, row, after)
  {
    StepGrows(s, a);
    if Resumes(a, req) {
      ResumedRotation(s, a, req, token, row, after);
    } else {
      OthersLeave(s, a, req);
    }
  }

  lemma {:induction false} RunRotating(s: Server, run: seq<Action>, t: Server, req: string, token: string, row: Row,
      after: nat)
    requires Leads(s, run, t) && Rotating(s, req, token, row, after)
    ensures Rotating(t, req, token, row, after)
    decreases |run|
  {
    if run != [] {
      StepRotating(s, run[0], req, token, row, after);
      hide Step, Enabled, Rotating;
      RunRotating(Step(s, run[0]), run[1..], t, req, token, row, after);
    }
  }

  predicate GoesOn(stage: Stage, user: string) {
    match stage
    case Ahead(LoadUser(u, _, _)) => u == user
    case Ahead(IssueNext(_, _, _)) => true
    case Answered(reply) => reply.Issued?
    case _ => false
  }

  lemma {:induction false} ActiveRotation(s: Server, run: seq<Action>, t: Server, req: string, user: string)
    requires Leads(s, run, t) && StaysActive(s, run, user) && GoesOn(StageOf(s, req), user)
    ensures GoesOn(StageOf(t, req), user)
    decreases |run|
  {
    if run != [] {
      if Resumes(run[0], req) {
        ResumedActive(s, run[0], req, user);
      } else {
        OthersLeave(s, run[0], req);
      }
      hide Step, Enabled, StageOf, GoesOn;
      ActiveRotation(Step(s, run[0]), run[1..], t, req, user);
    }
  }

  lemma ResumedActive(s: Server, a: Action, req: string, user: string)
    requires Enabled(s, a) && Resumes(a, req) && !Barred(s, user) && GoesOn(StageOf(s, req), user)
    ensures GoesOn(StageOf(Step(s, a), req), user)
  {
    assert s.pending[req].LoadUser? || s.pending[req].IssueNext?;
  }

  /** A refused presentation on its way to its answer. */
  predicate Refusing(stage: Stage) {
    match stage
    case Ahead(LookUpReuse(_)) => true
    case Ahead(RevokeFamily(_)) => true
    case Answered(reply) => reply.Refused?
    case _ => false
  }

  lemma ResumedRefusal(s: Server, a: Action, req: string)
    requires Enabled(s, a) && Resumes(a, req) && Refusing(StageOf(s, req))
    ensures Refusing(StageOf(Step(s, a), req))
  {
    hide RevokeOfFamily, RevokeOfUser;
    assert s.pending[req].LookUpReuse? || s.pending[req].RevokeFamily?;
  }

  lemma {:induction false} RunRefusing(s: Server, run: seq<Action>, t: Server, req: string)
    requires Leads(s, run, t) && Refusing(StageOf(s, req))
    ensures Refusing(StageOf(t, req))
    decreases |run|
  {
    if run != [] {
      if Resumes(run[0], req) {
        ResumedRefusal(s, run[0], req);
      } else {
        OthersLeave(s, run[0], req);
      }
      hide Step, Enabled, StageOf, Refusing;
      RunRefusing(Step(s, run[0]), run[1..], t, req);
    }
  }

  /**
   A refresh, on any run. Unless the token presented is stored, unrevoked and unexpired, it never gets a token.
   If it is, the token is spent for ever, and what an answer may give is a token of the same family, issued for
   the one presented, with an access token for the same account read after the presentation. An account that
   stays active is not refused, and one that stays barred is.
   */
  lemma RefreshOutcome(s: Server, req: string, token: string, run: seq<Action>, t: Server)
    requires Enabled(s, Refresh(req, token)) && Leads(Step(s, Refresh(req, token)), run, t)
    ensures !Usable(s, token) ==> Refusing(StageOf(t, req))
    ensures Usable(s, token) ==>
      && Rotating(t, req, token, s.rows[token], s.clock)
      && (token in s.places ==> Spent(t, token))
      && (StaysActive(Step(s, Refresh(req, token)), run, s.rows[token].user) ==>
            GoesOn(StageOf(t, req), s.rows[token].user))
      && (StaysBarred(Step(s, Refresh(req, token)), run, s.rows[token].user) ==>
            RotationStops(StageOf(t, req), s.rows[token].user))
  {
    var u := Step(s, Refresh(req, token));
    Presented(s, req, token);
    hide Step, Enabled, Rotating, Refusing, Spent, StageOf, Usable, GoesOn, RotationStops;
    if Usable(s, token) {
      var row := s.rows[token];
      RunRotating(u, run, t, req, token, row, s.clock);
      if StaysActive(u, run, row.user) {
        ActiveRotation(u, run, t, req, row.user);
      }
      if StaysBarred(u, run, row.user) {
        BarredRotation(u, run, t, req, row.user);
      }
      if token in s.places {
        SpentForever(u, run, t, token);
      }
    } else {
      RunRefusing(u, run, t, req);
    }
  }

  lemma Presented(s: Server, req: string, token: string)
    requires Enabled(s, Refresh(req, token))
    ensures var u := Step(s, Refresh(req, token));
      && (!Usable(s, token) ==> Refusing(StageOf(u, req)))
      && (Usable(s, token) ==>
            && token in s.rows && Rotating(u, req, token, s.rows[token], s.clock)
            && (token in s.places ==> Spent(u, token))
            && GoesOn(StageOf(u, req), s.rows[token].user) && RotationStops(StageOf(u, req), s.rows[token].user))
  {
  }

  lemma SpentForever(s: Server, run: seq<Action>, t: Server, token: string)
    requires Leads(s, run, t) && Spent(s, token)
    ensures Spent(t, token)
  {
    RunGrows(s, run, t);
  }

  // ----- Logging out -----

  /** A token presented to a logout never buys another pair, and every other row is as it was. */
  lemma LogoutIsFinal(s: Server, req: string, token: string, run: seq<Action>, t: Server, again: string,
      more: seq<Action>, u: Server)
    requires Enabled(s, Logout(req, token)) && token in s.places && Leads(Step(s, Logout(req, token)), run, t)
    requires Enabled(t, Refresh(again, token)) && Leads(Step(t, Refresh(again, token)), more, u)
    ensures StageOf(t, req) == Answered(Done) && Spent(t, token) && Refusing(StageOf(u, again))
    ensures forall k :: k in s.rows && k != token ==>
      k in Step(s, Logout(req, token)).rows && Step(s, Logout(req, token)).rows[k] == s.rows[k]
  {
    var out := Step(s, Logout(req, token));
    AnswerIsFinal(out, run, t, req);
    SpentForever(out, run, t, token);
    RefreshOutcome(t, again, token, more, u);
  }

  /** The tokens of the user that are stored. */
  function TokensOf(s: Server, user: string): set<string> {
    set k | k in s.rows && s.rows[k].user == user
  }

  ghost predicate AllSpent(s: Server, tokens: set<string>) {
    forall k :: k in tokens ==> Spent(s, k)
  }

  ghost predicate AllOwned(s: Server, tokens: set<string>, user: string) {
    forall k :: k in tokens ==> Owned(s, k, user)
  }

  function VersionOf(s: Server, user: string): nat {
    if user in s.users then s.users[user].tokenVersion else 0
  }

  /** A logout of all sessions, begun when the version was `v`. */
  predicate LoggingOut(s: Server, req: string, user: string, v: nat) {
    v <= VersionOf(s, user) &&
    match StageOf(s, req)
    case Ahead(BumpVersion(u)) => u == user
    case Answered(Done) => v < VersionOf(s, user)
    case Answered(Refused(_)) => v == 0
    case _ => false
  }

  lemma StepLoggingOut(s: Server, a: Action, req: string, user: string, v: nat)
    requires Enabled(s, a) && LoggingOut(s, req, user, v) && (v > 0 ==> user in s.users)
    ensures LoggingOut(Step(s, a), req, user, v)
  {
    UsersStay(s, a);
    hide NewToken;
    if Resumes(a, req) {
      assert s.pending[req] == BumpVersion(user);
    } else {
      OthersLeave(s, a, req);
      hide Continue;
    }
  }

  lemma {:induction false} RunLoggingOut(s: Server, run: seq<Action>, t: Server, req: string, user: string, v: nat)
    requires Leads(s, run, t) && LoggingOut(s, req, user, v)
    ensures LoggingOut(t, req, user, v)
    decreases |run|
  {
    if run != [] {
      StepLoggingOut(s, run[0], req, user, v);
      hide Step, Enabled, LoggingOut;
      RunLoggingOut(Step(s, run[0]), run[1..], t, req, user, v);
    }
  }

  lemma LogoutAllStarts(s: Server, req: string, user: string)
    requires Reachable(s) && Enabled(s, LogoutAll(req, user))
    ensures var u := Step(s, LogoutAll(req, user));
      AllSpent(u, TokensOf(s, user)) && LoggingOut(u, req, user, VersionOf(s, user))
    ensures user in s.users ==> VersionOf(s, user) > 0
  {
    AccessTokens.ReachableVersions(s);
    AllOwnedNow(s, user);
    hide Reachable, Enabled, AllOwned, AllSpent, TokensOf, RevokeOfUser;
    var out := s.(rows := RevokeOfUser(s.rows, user));
    RevokedOwned(s, TokensOf(s, user), user);
    SameSpent(out, Step(s, LogoutAll(req, user)), TokensOf(s, user));
  }

  lemma AllOwnedNow(s: Server, user: string)
    requires Reachable(s)
    ensures AllOwned(s, TokensOf(s, user), user)
  {
    RowsArePlaced(s);
  }

  lemma AllSpentForever(s: Server, run: seq<Action>, t: Server, tokens: set<string>)
    requires Leads(s, run, t) && AllSpent(s, tokens)
    ensures AllSpent(t, tokens)
  {
    forall k | k in tokens
      ensures Spent(t, k)
    {
      SpentForever(s, run, t, k);
    }
  }

  /**
   A logout of all sessions: from its first call on, no token of the user that was out can be exchanged, on any
   run, and once it is done the version has risen. It is not refused to an account that is there.
   */
  lemma LogoutAllOutcome(s: Server, req: string, user: string, run: seq<Action>, t: Server)
    requires Reachable(s) && Enabled(s, LogoutAll(req, user)) && Leads(Step(s, LogoutAll(req, user)), run, t)
    ensures AllSpent(t, TokensOf(s, user)) && LoggingOut(t, req, user, VersionOf(s, user))
    ensures user in s.users ==> StageOf(t, req) == Ahead(BumpVersion(user)) || StageOf(t, req) == Answered(Done)
  {
    var u := Step(s, LogoutAll(req, user));
    LogoutAllStarts(s, req, user);
    hide Step, Enabled, AllSpent, Reachable, TokensOf;
    AllSpentForever(u, run, t, TokensOf(s, user));
    RunLoggingOut(u, run, t, req, user, VersionOf(s, user));
  }

  lemma RowsArePlaced(s: Server)
    requires Reachable(s)
    ensures forall k :: k in s.rows ==> k in s.places
  {
    SessionFamilies.ReachableKeeps(s);
    forall k | k in s.rows
      ensures k in s.places
    {
      assert RowOk(k, s.rows[k], s.chains, s.places);
    }
  }

  /** A change of password, begun when the version was `v` and `tokens` were the user's. */
  ghost predicate ChangingPassword(s: Server, req: string, user: string, v: nat, tokens: set<string>) {
    user in s.users && v <= VersionOf(s, user) && AllOwned(s, tokens, user) &&
    match StageOf(s, req)
    case Ahead(StorePassword(u)) => u == user
    case Ahead(RevokeUser(u)) => u == user && v < VersionOf(s, user)
    case Answered(reply) => reply == Done && v < VersionOf(s, user) && AllSpent(s, tokens)
    case _ => false
  }

  lemma StepOwned(s: Server, t: Server, tokens: set<string>, user: string)
    requires Grows(s, t)
    ensures AllOwned(s, tokens, user) ==> AllOwned(t, tokens, user)
    ensures AllSpent(s, tokens) ==> AllSpent(t, tokens)
  {
    forall k | k in tokens
      ensures Owned(s, k, user) ==> Owned(t, k, user)
      ensures Spent(s, k) ==> Spent(t, k)
    {
    }
  }

  lemma RevokedOwned(s: Server, tokens: set<string>, user: string)
    requires AllOwned(s, tokens, user)
    ensures AllSpent(s.(rows := RevokeOfUser(s.rows, user)), tokens)
  {
    forall k | k in tokens
      ensures Spent(s.(rows := RevokeOfUser(s.rows, user)), k)
    {
      assert Owned(s, k, user);
    }
  }

  lemma SameSpent(s: Server, t: Server, tokens: set<string>)
    requires AllSpent(s, tokens) && t.rows == s.rows && t.places == s.places
    ensures AllSpent(t, tokens)
  {
  }

  lemma ResumedChange(s: Server, a: Action, req: string, user: string, v: nat, tokens: set<string>)
    requires Enabled(s, a) && Resumes(a, req) && ChangingPassword(s, req, user, v, tokens)
    requires AllOwned(Step(s, a), tokens, user)
    ensures ChangingPassword(Step(s, a), req, user, v, tokens)
  {
    hide AllOwned, AllSpent, RevokeOfUser, NewToken;
    assert s.pending[req] == StorePassword(user) || s.pending[req] == RevokeUser(user);
    if s.pending[req] == RevokeUser(user) {
      RevokedOwned(s, tokens, user);
      SameSpent(s.(rows := RevokeOfUser(s.rows, user)), Step(s, a), tokens);
    }
  }

  lemma StepChangingPassword(s: Server, a: Action, req: string, user: string, v: nat, tokens: set<string>)
    requires Enabled(s, a) && ChangingPassword(s, req, user, v, tokens)
    ensures ChangingPassword(Step(s, a), req, user, v, tokens)
  {
    StepGrows(s, a);
    UsersStay(s, a);
    StepOwned(s, Step(s, a), tokens, user);
    if Resumes(a, req) {
      ResumedChange(s, a, req, user, v, tokens);
    } else {
      OthersLeave(s, a, req);
      hide Step, Enabled, AllOwned, AllSpent, Grows;
    }
  }

  lemma {:induction false} RunChangingPassword(s: Server, run: seq<Action>, t: Server, req: string, user: string,
      v: nat, tokens: set<string>)
    requires Leads(s, run, t) && ChangingPassword(s, req, user, v, tokens)
    ensures ChangingPassword(t, req, user, v, tokens)
    decreases |run|
  {
    if run != [] {
      StepChangingPassword(s, run[0], req, user, v, tokens);
      hide Step, Enabled, ChangingPassword;
      RunChangingPassword(Step(s, run[0]), run[1..], t, req, user, v, tokens);
    }
  }

  /**
   A change of password: refused at once, with nothing changed, unless the account is there and the old
   password right; else never refused, and once it is done the version has risen and no token that the user
   had when it began can be exchanged.
   */
  lemma ChangePasswordOutcome(s: Server, req: string, user: string, accepted: bool, run: seq<Action>, t: Server)
    requires Reachable(s) && Enabled(s, ChangePassword(req, user, accepted))
    requires Leads(Step(s, ChangePassword(req, user, accepted)), run, t)
    ensures if accepted && user in s.users
      then ChangingPassword(t, req, user, VersionOf(s, user), TokensOf(s, user))
      else StageOf(t, req) == Answered(Refused(false))
    ensures var u := Step(s, ChangePassword(req, user, accepted)); u.users == s.users && u.rows == s.rows
  {
    var u := Step(s, ChangePassword(req, user, accepted));
    AllOwnedNow(s, user);
    ChangeStarts(s, req, user, accepted, TokensOf(s, user));
    hide Reachable, Step, Enabled, ChangingPassword, StageOf, TokensOf;
    if accepted && user in s.users {
      RunChangingPassword(u, run, t, req, user, VersionOf(s, user), TokensOf(s, user));
    } else {
      AnswerIsFinal(u, run, t, req);
    }
  }

  lemma ChangeStarts(s: Server, req: string, user: string, accepted: bool, tokens: set<string>)
    requires Enabled(s, ChangePassword(req, user, accepted)) && AllOwned(s, tokens, user)
    ensures var u := Step(s, ChangePassword(req, user, accepted));
      && u.users == s.users && u.rows == s.rows
      && if accepted && user in s.users then ChangingPassword(u, req, user, VersionOf(s, user), tokens)
         else StageOf(u, req) == Answered(Refused(false))
  {
  }

  // ----- How long a token lasts -----

  /** A token that is issued can be exchanged from then on, unless it is revoked or removed, for exactly seven days. */
  lemma IssuedForSevenDays(s: Server, req: string, freshFamily: string, freshToken: string, run: seq<Action>, t: Server)
    requires Enabled(s, Resume(req, freshFamily, freshToken))
    requires s.pending[req].IssueFirst? || s.pending[req].IssueNext?
    requires Leads(Step(s, Resume(req, freshFamily, freshToken)), run, t)
    ensures Usable(Step(s, Resume(req, freshFamily, freshToken)), freshToken)
    ensures !Spent(t, freshToken) ==> (Usable(t, freshToken) <==> t.clock < s.clock + 604800)
  {
    var u := Step(s, Resume(req, freshFamily, freshToken));
    RunGrows(u, run, t);
    assert freshToken in u.places && u.rows[freshToken].expiresAt == s.clock + 604800;
  }
}

/** Access tokens carry the version of the user document they were signed from; raising it revokes them. */
module AccessTokens {
  import opened RefreshTokens

  /** The HTTP test of the bearer strategy: a missing version, on either side, lets the token through. */
  predicate HttpAccepts(presented: nat, stored: nat) {
    !(presented != 0 && stored != 0 && presented < stored)
  }

  /** The test of the socket gateway. */
  predicate SocketAccepts(presented: nat, stored: nat) {
    presented == stored
  }

  predicate HttpAdmits(s: Server, access: UserRead) {
    access.user in s.users && HttpAccepts(access.tokenVersion, s.users[access.user].tokenVersion)
  }

  predicate HoldsRead(q: Request) {
    q.IssueFirst? || q.IssueNext?
  }

  /** A read is older than now, and saw a version that is at least 1 and not above the present one. */
  predicate ReadOk(x: UserRead, users: map<string, User>, clock: nat) {
    x.user in users && 1 <= x.tokenVersion <= users[x.user].tokenVersion && x.readAt < clock
  }

  ghost predicate VersionInv(s: Server) {
    && (forall u :: u in s.users ==> s.users[u].tokenVersion >= 1)
    && (forall x :: x in s.signed ==> ReadOk(x, s.users, s.clock))
    && (forall r :: r in s.pending && HoldsRead(s.pending[r]) ==> ReadOk(s.pending[r].read, s.users, s.clock))
  }

  /** Users are never removed and their versions never fall. */
  ghost predicate UsersGrow(before: map<string, User>, after: map<string, User>) {
    forall u :: u in before ==> u in after && before[u].tokenVersion <= after[u].tokenVersion
  }

  /** What one call does to the reads that exist: none but those made now, with the version of now. */
  ghost predicate ReadsFrom(s: Server, t: Server) {
    && (forall x :: x in t.signed ==>
          x in s.signed || exists r :: r in s.pending && HoldsRead(s.pending[r]) && s.pending[r].read == x)
    && (forall r :: r in t.pending && HoldsRead(t.pending[r]) ==>
          (r in s.pending && t.pending[r] == s.pending[r]) || MadeNow(s, t, t.pending[r].read))
  }

  predicate MadeNow(s: Server, t: Server, x: UserRead) {
    x.user in t.users && x.readAt == s.clock && 1 <= x.tokenVersion == t.users[x.user].tokenVersion
  }

  /** The effect of one call on users and reads. */
  ghost predicate ReadStep(s: Server, t: Server) {
    && UsersGrow(s.users, t.users)
    && ReadsFrom(s, t)
    && (forall u :: u in t.users ==> t.users[u].tokenVersion >= 1)
  }

  lemma QuietReads(s: Server, t: Server)
    requires VersionInv(s) && t.signed == s.signed && t.users == s.users
    requires forall r :: r in t.pending && HoldsRead(t.pending[r]) ==> r in s.pending && t.pending[r] == s.pending[r]
    ensures ReadStep(s, t)
  {
  }

  lemma BumpReads(s: Server, user: string, t: Server)
    requires VersionInv(s) && user in s.users && t.users == Bump(s, user).users && t.signed == s.signed
    requires forall r :: r in t.pending && HoldsRead(t.pending[r]) ==> r in s.pending && t.pending[r] == s.pending[r]
    ensures ReadStep(s, t)
  {
  }

  lemma IssueReads(s: Server, req: string, read: UserRead, family: string, parent: string, token: string)
    requires VersionInv(s) && req in s.pending && HoldsRead(s.pending[req]) && s.pending[req].read == read
    ensures ReadStep(s, Issue(s, req, read, family, parent, token))
  {
  }

  lemma LoadReads(s: Server, req: string, q: Request, user: string)
    requires VersionInv(s) && user in s.users && HoldsRead(q) && q.read == ReadUser(s, user)
    ensures ReadStep(s, Await(s, req, q))
  {
  }

  lemma ContinueReads(s: Server, req: string, freshFamily: string, freshToken: string)
    requires VersionInv(s) && req in s.pending
    ensures ReadStep(s, Continue(s, req, freshFamily, freshToken))
  {
    var t := Continue(s, req, freshFamily, freshToken);
    match s.pending[req]
    case CreateUser(user) =>
      if user in s.users { QuietReads(s, t); } else { CreationReads(s, req, user); }
    case IssueFirst(read) => IssueReads(s, req, read, freshFamily, "", freshToken);
    case IssueNext(read, family, parent) => IssueReads(s, req, read, family, parent, freshToken);
    case LoadUser(user, family, parent) =>
      if user !in s.users || s.users[user].suspended {
        QuietReads(s, t);
      } else {
        LoadReads(s, req, IssueNext(ReadUser(s, user), family, parent), user);
      }
    case LookUpReuse(_) => QuietReads(s, t);
    case RevokeFamily(_) => QuietReads(s, t);
    case RevokeUser(_) => QuietReads(s, t);
    case BumpVersion(user) =>
      if user in s.users { BumpReads(s, user, t); } else { QuietReads(s, t); }
    case StorePassword(user) =>
      if user in s.users { BumpReads(s, user, t); } else { QuietReads(s, t); }
  }

  lemma CreationReads(s: Server, req: string, user: string)
    requires VersionInv(s) && user !in s.users
    ensures ReadStep(s, Await(s.(users := s.users[user := User(1, false)]), req,
                              IssueFirst(UserRead(user, 1, s.clock))))
  {
  }

  lemma ApplyReads(s: Server, a: Action)
    requires VersionInv(s) && Enabled(s, a)
    ensures ReadStep(s, Apply(s, a))
  {
    hide ReadStep, VersionInv;
    var t := Apply(s, a);
    match a
    case Resume(req, family, token) => ContinueReads(s, req, family, token);
    case Register(req, user) => QuietReads(s, t);
    case Login(req, user, ok) =>
      if user !in s.users || !ok || s.users[user].suspended {
        QuietReads(s, t);
      } else {
        LoadReads(s, req, IssueFirst(ReadUser(s, user)), user);
      }
    case SetStatus(_, _) => StatusReads(s, a);
    case Refresh(req, token) => PresentReads(s, req, token);
    case _ => QuietApply(s, a);
  }

  lemma PresentReads(s: Server, req: string, token: string)
    requires VersionInv(s)
    ensures ReadStep(s, PresentToken(s, req, token))
  {
    hide ReadStep, VersionInv;
    QuietReads(s, PresentToken(s, req, token));
  }

  lemma QuietApply(s: Server, a: Action)
    requires VersionInv(s) && Enabled(s, a)
    requires a.Logout? || a.LogoutAll? || a.ChangePassword? || a.Sweep? || a.Wait?
    ensures ReadStep(s, Apply(s, a))
  {
    hide ReadStep, VersionInv, HoldsRead, Apply;
    QuietApplied(s, a);
    QuietReads(s, Apply(s, a));
  }

  lemma QuietApplied(s: Server, a: Action)
    requires a.Logout? || a.LogoutAll? || a.ChangePassword? || a.Sweep? || a.Wait?
    ensures var t := Apply(s, a);
      && t.signed == s.signed && t.users == s.users
      && forall r :: r in t.pending && HoldsRead(t.pending[r]) ==> r in s.pending && t.pending[r] == s.pending[r]
  {
    hide RevokeOfUser;
  }

  lemma StatusReads(s: Server, a: Action)
    requires VersionInv(s) && Enabled(s, a) && a.SetStatus?
    ensures ReadStep(s, Apply(s, a))
  {
  }

  lemma TimeReads(s: Server, t: Server, clock: nat)
    requires ReadStep(s, t)
    ensures ReadStep(s, t.(clock := clock))
  {
  }

  lemma StepReads(s: Server, a: Action)
    requires VersionInv(s) && Enabled(s, a)
    ensures ReadStep(s, Step(s, a)) && s.clock < Step(s, a).clock
  {
    ApplyReads(s, a);
    TimeReads(s, Apply(s, a), Step(s, a).clock);
  }

  lemma StepKeepsVersions(s: Server, a: Action)
    requires VersionInv(s) && Enabled(s, a)
    ensures VersionInv(Step(s, a)) && UsersGrow(s.users, Step(s, a).users)
  {
    StepReads(s, a);
  }

  lemma {:induction false} VersionsOnlyGrow(s: Server, run: seq<Action>, t: Server)
    requires VersionInv(s) && Leads(s, run, t)
    ensures VersionInv(t) && UsersGrow(s.users, t.users) && s.clock <= t.clock
    decreases |run|
  {
    if run != [] {
      StepKeepsVersions(s, run[0]);
      StepReads(s, run[0]);
      VersionsOnlyGrow(Step(s, run[0]), run[1..], t);
    }
  }

  lemma ReachableVersions(s: Server)
    requires Reachable(s)
    ensures VersionInv(s)
  {
    var run :| Leads(EMPTY, run, s);
    VersionsOnlyGrow(EMPTY, run, s);
  }

  // ----- The two tests -----

  /** Exactly when the two tests answer alike, for arbitrary versions. */
  lemma TestsAgreeIff(presented: nat, stored: nat)
    ensures (HttpAccepts(presented, stored) <==> SocketAccepts(presented, stored))
       <==> (presented == stored || 0 < presented < stored)
  {
  }

  /** On every token that was ever signed, the two tests answer alike: accept exactly the present version. */
  lemma TestsAgree(s: Server, access: UserRead)
    requires Reachable(s) && access in s.signed
    ensures access.user in s.users
    ensures HttpAdmits(s, access) <==> SocketAccepts(access.tokenVersion, s.users[access.user].tokenVersion)
  {
    ReachableVersions(s);
    assert ReadOk(access, s.users, s.clock);
  }

  // ----- Revocation -----

  /** The call by which a logout of all sessions, or a change of password, raises the version of `user`. */
  predicate Raises(s: Server, a: Action, user: string) {
    && a.Resume?
    && a.req in s.pending
    && user in s.users
    && (s.pending[a.req] == BumpVersion(user) || s.pending[a.req] == StorePassword(user))
  }

  /** Every read of `user` up to `time` saw a version below the present one. */
  ghost predicate Outdated(s: Server, user: string, time: nat) {
    && user in s.users
    && time < s.clock
    && (forall x :: x in s.signed && x.user == user && x.readAt <= time ==> x.tokenVersion < s.users[user].tokenVersion)
    && (forall r ::
          && r in s.pending && HoldsRead(s.pending[r])
          && s.pending[r].read.user == user && s.pending[r].read.readAt <= time
          ==> s.pending[r].read.tokenVersion < s.users[user].tokenVersion)
  }

  lemma StepKeepsOutdated(s: Server, a: Action, user: string, time: nat)
    requires VersionInv(s) && Enabled(s, a) && Outdated(s, user, time)
    ensures Outdated(Step(s, a), user, time)
  {
    StepReads(s, a);
  }

  lemma {:induction false} OutdatedForever(s: Server, run: seq<Action>, t: Server, user: string, time: nat)
    requires VersionInv(s) && Leads(s, run, t) && Outdated(s, user, time)
    ensures Outdated(t, user, time)
    decreases |run|
  {
    if run != [] {
      StepKeepsVersions(s, run[0]);
      StepKeepsOutdated(s, run[0], user, time);
      OutdatedForever(Step(s, run[0]), run[1..], t, user, time);
    }
  }

  lemma RaisingOutdates(s: Server, a: Action, user: string)
    requires VersionInv(s) && Enabled(s, a) && Raises(s, a, user)
    ensures Outdated(Step(s, a), user, s.clock)
  {
    var t := Step(s, a);
    assert t.signed == s.signed;
    assert t.users[user].tokenVersion == s.users[user].tokenVersion + 1;
    forall r | r in t.pending && HoldsRead(t.pending[r])
      ensures r in s.pending && t.pending[r] == s.pending[r]
    {
    }
  }

  /**
   After the version of `user` was raised, an access token of that user is accepted, at any later
   time, only if it was signed from a read made after the raise. In particular the tokens that were
   out by then, and those that requests then in flight sign afterwards, are rejected for ever.
   */
  lemma RevocationIsFinal(s: Server, a: Action, user: string, run: seq<Action>, t: Server, access: UserRead)
    requires Reachable(s) && Enabled(s, a) && Raises(s, a, user) && Leads(Step(s, a), run, t)
    requires access in t.signed && access.user == user && HttpAdmits(t, access)
    ensures access.readAt > s.clock
    ensures access !in s.signed
    ensures forall r :: r in s.pending && HoldsRead(s.pending[r]) ==> s.pending[r].read != access
  {
    ReachableVersions(s);
    RaisingOutdates(s, a, user);
    StepKeepsVersions(s, a);
    OutdatedForever(Step(s, a), run, t, user, s.clock);
    VersionsOnlyGrow(Step(s, a), run, t);
  }
}

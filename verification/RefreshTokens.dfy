/**
 The refresh-token store and the requests that work on it.

 Every request of the authentication service is a sequence of database calls. Between two
 calls of one request, any number of calls of other requests may run, so the unit of execution
 here is one call. What a request still has to do is kept in `pending`; what it
 answered is kept in `replies`.
 */
module RefreshTokens {

  // Refresh tokens live seven days; the database deletes a row seven days after that.
  const SEVEN_DAYS: nat := 604800

  datatype User = User(tokenVersion: nat, suspended: bool)

  datatype Row = Row(user: string, family: string, isRevoked: bool, expiresAt: nat)

  /** What a request remembers of the user document it read. An access token carries the same data. */
  datatype UserRead = UserRead(user: string, tokenVersion: nat, readAt: nat)

  /** One refresh token as it was issued: `parent` is the token consumed for it, "" for the first. */
  datatype Link = Link(token: string, parent: string)

  datatype Place = Place(family: string, index: nat)

  /** The database calls that a request has still to make. */
  datatype Request =
    | CreateUser(user: string)
    | IssueFirst(read: UserRead)
    | LoadUser(user: string, family: string, parent: string)
    | IssueNext(read: UserRead, family: string, parent: string)
    | LookUpReuse(token: string)
    | RevokeFamily(family: string)
    | BumpVersion(user: string)
    | StorePassword(user: string)
    | RevokeUser(user: string)

  datatype Reply =
    | Issued(access: UserRead, token: string)
    | Refused(reuse: bool)
    | Done

  /**
   `users`, `rows` are the collections; `pending` and `replies` belong to the requests. `signed`,
   `chains` and `places` are history: the access tokens signed so far, the refresh tokens of each
   family in order of issue, and where in the chains each token is.
   */
  datatype Server = Server(
    clock: nat,
    users: map<string, User>,
    rows: map<string, Row>,
    pending: map<string, Request>,
    replies: map<string, Reply>,
    signed: set<UserRead>,
    chains: map<string, seq<Link>>,
    places: map<string, Place>)

  const EMPTY := Server(0, map[], map[], map[], map[], {}, map[], map[])

  /** The first database call of a request, the next call of a pending one, or a change from outside. */
  datatype Action =
    | Register(req: string, user: string)
    | Login(req: string, user: string, passwordOk: bool)
    | Refresh(req: string, token: string)
    | Logout(req: string, token: string)
    | LogoutAll(req: string, user: string)
    | ChangePassword(req: string, user: string, accepted: bool)
    | Resume(req: string, freshFamily: string, freshToken: string)
    | SetStatus(user: string, suspended: bool)
    | Sweep(token: string)
    | Wait(seconds: nat)

  // ----- Freshness of random identifiers -----

  predicate NewRequest(s: Server, req: string) {
    req !in s.pending && req !in s.replies
  }

  /** A random token was never issued, and nobody has presented it before it exists. */
  ghost predicate NewToken(s: Server, token: string) {
    && token != ""
    && token !in s.places
    && token !in s.rows
    && forall r :: r in s.pending && s.pending[r].LookUpReuse? ==> s.pending[r].token != token
  }

  predicate NewFamily(s: Server, family: string) {
    family !in s.chains
  }

  ghost predicate Enabled(s: Server, a: Action) {
    match a
    case Register(req, _) => NewRequest(s, req)
    case Login(req, _, _) => NewRequest(s, req)
    case Refresh(req, _) => NewRequest(s, req)
    case Logout(req, _) => NewRequest(s, req)
    case LogoutAll(req, _) => NewRequest(s, req)
    case ChangePassword(req, _, _) => NewRequest(s, req)
    case Resume(req, family, token) => req in s.pending && NewFamily(s, family) && NewToken(s, token)
    case SetStatus(user, _) => user in s.users
    case Sweep(token) => token in s.rows && s.rows[token].expiresAt + SEVEN_DAYS <= s.clock
    case Wait(_) => true
  }

  // ----- Single calls -----

  function RevokeOfFamily(rows: map<string, Row>, family: string): map<string, Row> {
    map t | t in rows :: if rows[t].family == family then rows[t].(isRevoked := true) else rows[t]
  }

  function RevokeOfUser(rows: map<string, Row>, user: string): map<string, Row> {
    map t | t in rows :: if rows[t].user == user then rows[t].(isRevoked := true) else rows[t]
  }

  function Answer(s: Server, req: string, reply: Reply): Server {
    s.(pending := s.pending - {req}, replies := s.replies[req := reply])
  }

  function Await(s: Server, req: string, next: Request): Server {
    s.(pending := s.pending[req := next])
  }

  /** The access token carries the version that was read, or 1 when the document has none. */
  function ReadUser(s: Server, user: string): UserRead
    requires user in s.users
  {
    var v := s.users[user].tokenVersion;
    UserRead(user, if v == 0 then 1 else v, s.clock)
  }

  predicate Consumable(s: Server, token: string) {
    token in s.rows && !s.rows[token].isRevoked && s.clock < s.rows[token].expiresAt
  }

  function Consume(s: Server, token: string): Server
    requires token in s.rows
  {
    s.(rows := s.rows[token := s.rows[token].(isRevoked := true)])
  }

  function Issue(s: Server, req: string, read: UserRead, family: string, parent: string, token: string): Server {
    var before := if family in s.chains then s.chains[family] else [];
    Answer(s.(rows := s.rows[token := Row(read.user, family, false, s.clock + SEVEN_DAYS)],
              signed := s.signed + {read},
              chains := s.chains[family := before + [Link(token, parent)]],
              places := s.places[token := Place(family, |before|)]),
           req, Issued(read, token))
  }

  function Bump(s: Server, user: string): Server
    requires user in s.users
  {
    s.(users := s.users[user := s.users[user].(tokenVersion := s.users[user].tokenVersion + 1)])
  }

  // ----- Requests -----

  function PresentToken(s: Server, req: string, token: string): Server {
    if token == "" then Answer(s, req, Refused(false))
    else if Consumable(s, token) then
      Await(Consume(s, token), req, LoadUser(s.rows[token].user, s.rows[token].family, token))
    else Await(s, req, LookUpReuse(token))
  }

  function Continue(s: Server, req: string, freshFamily: string, freshToken: string): Server
    requires req in s.pending
  {
    match s.pending[req]
    case CreateUser(user) =>
      if user in s.users then Answer(s, req, Refused(false))
      else Await(s.(users := s.users[user := User(1, false)]), req, IssueFirst(UserRead(user, 1, s.clock)))
    case IssueFirst(read) => Issue(s, req, read, freshFamily, "", freshToken)
    case LoadUser(user, family, parent) =>
      if user !in s.users || s.users[user].suspended then Answer(s, req, Refused(false))
      else Await(s, req, IssueNext(ReadUser(s, user), family, parent))
    case IssueNext(read, family, parent) => Issue(s, req, read, family, parent, freshToken)
    case LookUpReuse(token) =>
      if token in s.rows && s.rows[token].isRevoked then Await(s, req, RevokeFamily(s.rows[token].family))
      else Answer(s, req, Refused(false))
    case RevokeFamily(family) =>
      Answer(s.(rows := RevokeOfFamily(s.rows, family)), req, Refused(true))
    case BumpVersion(user) =>
      if user in s.users then Answer(Bump(s, user), req, Done) else Answer(s, req, Refused(false))
    case StorePassword(user) =>
      if user in s.users then Await(Bump(s, user), req, RevokeUser(user)) else Answer(s, req, Refused(false))
    case RevokeUser(user) =>
      Answer(s.(rows := RevokeOfUser(s.rows, user)), req, Done)
  }

  function Apply(s: Server, a: Action): Server
    requires a.Resume? ==> a.req in s.pending
    requires a.SetStatus? ==> a.user in s.users
  {
    match a
    case Register(req, user) =>
      if user in s.users then Answer(s, req, Refused(false)) else Await(s, req, CreateUser(user))
    case Login(req, user, passwordOk) =>
      if user !in s.users || !passwordOk || s.users[user].suspended then Answer(s, req, Refused(false))
      else Await(s, req, IssueFirst(ReadUser(s, user)))
    case Refresh(req, token) => PresentToken(s, req, token)
    case Logout(req, token) =>
      Answer(if token in s.rows then Consume(s, token) else s, req, Done)
    case LogoutAll(req, user) =>
      Await(s.(rows := RevokeOfUser(s.rows, user)), req, BumpVersion(user))
    case ChangePassword(req, user, accepted) =>
      if user !in s.users || !accepted then Answer(s, req, Refused(false))
      else Await(s, req, StorePassword(user))
    case Resume(req, family, token) => Continue(s, req, family, token)
    case SetStatus(user, suspended) => s.(users := s.users[user := s.users[user].(suspended := suspended)])
    case Sweep(token) => s.(rows := s.rows - {token})
    case Wait(_) => s
  }

  /** One call. The clock moves on every call, so no two reads of a user have the same time. */
  function Step(s: Server, a: Action): Server
    requires a.Resume? ==> a.req in s.pending
    requires a.SetStatus? ==> a.user in s.users
  {
    Apply(s, a).(clock := s.clock + 1 + if a.Wait? then a.seconds else 0)
  }

  /** `t` is reached from `s` by the calls `run`, in that order. */
  ghost predicate Leads(s: Server, run: seq<Action>, t: Server)
    decreases |run|
  {
    if run == [] then s == t
    else Enabled(s, run[0]) && Leads(Step(s, run[0]), run[1..], t)
  }

  ghost predicate Reachable(s: Server) {
    exists run :: Leads(EMPTY, run, s)
  }

  // ----- What every call keeps -----

  predicate IsRotation(q: Request) {
    q.LoadUser? || q.IssueNext?
  }

  function Newest(chain: seq<Link>): string
    requires |chain| > 0
  {
    chain[|chain| - 1].token
  }

  predicate LinkOk(chain: seq<Link>, i: nat, family: string, places: map<string, Place>)
    requires i < |chain|
  {
    && chain[i].token in places
    && places[chain[i].token] == Place(family, i)
    && chain[i].parent == if i == 0 then "" else chain[i - 1].token
  }

  ghost predicate ChainOk(chain: seq<Link>, family: string, places: map<string, Place>) {
    |chain| > 0 && forall i {:trigger LinkOk(chain, i, family, places)} :: 0 <= i < |chain| ==>
        LinkOk(chain, i, family, places)
  }

  predicate PlaceOk(token: string, place: Place, chains: map<string, seq<Link>>) {
    && token != ""
    && place.family in chains
    && place.index < |chains[place.family]|
    && chains[place.family][place.index].token == token
  }

  /** Each token is at the one place recorded for it, and follows the token it was exchanged for. */
  ghost predicate ChainsLinked(chains: map<string, seq<Link>>, places: map<string, Place>) {
    && (forall f :: f in chains ==> ChainOk(chains[f], f, places))
    && (forall t :: t in places ==> PlaceOk(t, places[t], chains))
  }

  /** A row belongs to its family's chain, and a row that is not revoked is the newest of the chain. */
  predicate RowOk(token: string, row: Row, chains: map<string, seq<Link>>, places: map<string, Place>) {
    && token in places
    && places[token].family == row.family
    && row.family in chains
    && |chains[row.family]| > 0
    && (!row.isRevoked ==> token == Newest(chains[row.family]))
  }

  /** A rotation in flight has consumed the newest token of its family. */
  predicate RotationOk(family: string, parent: string, rows: map<string, Row>, chains: map<string, seq<Link>>) {
    && family in chains
    && |chains[family]| > 0
    && parent == Newest(chains[family])
    && (parent in rows ==> rows[parent].isRevoked)
  }

  ghost predicate RowsOk(s: Server) {
    forall t :: t in s.rows ==> RowOk(t, s.rows[t], s.chains, s.places)
  }

  ghost predicate RotationsOk(s: Server) {
    && (forall r :: r in s.pending && IsRotation(s.pending[r]) ==>
          RotationOk(s.pending[r].family, s.pending[r].parent, s.rows, s.chains))
    && (forall r, q | r in s.pending && q in s.pending && IsRotation(s.pending[r]) && IsRotation(s.pending[q]) ::
          s.pending[r].family == s.pending[q].family ==> r == q)
  }

  ghost predicate DetectionsOk(s: Server) {
    forall r :: r in s.pending && s.pending[r].RevokeFamily? ==> s.pending[r].family in s.chains
  }

  ghost predicate ChainInv(s: Server) {
    ChainsLinked(s.chains, s.places) && RowsOk(s) && RotationsOk(s) && DetectionsOk(s)
  }

  // One lemma for each kind of change to the store, then one for each action.

  lemma RevokingKeeps(s: Server, t: Server)
    requires ChainInv(s)
    requires t.chains == s.chains && t.places == s.places
    requires t.rows.Keys <= s.rows.Keys
    requires forall k :: k in t.rows ==> t.rows[k] == s.rows[k] || t.rows[k] == s.rows[k].(isRevoked := true)
    requires t.pending.Keys <= s.pending.Keys
    requires forall r :: r in t.pending ==> t.pending[r] == s.pending[r]
    ensures ChainInv(t)
  {
  }

  lemma AwaitKeeps(s: Server, req: string, next: Request)
    requires ChainInv(s)
    requires !next.LoadUser?
    requires next.RevokeFamily? ==> next.family in s.chains
    requires next.IssueNext? ==>
      req in s.pending && s.pending[req].LoadUser? && s.pending[req].family == next.family
          && s.pending[req].parent == next.parent
    ensures ChainInv(Await(s, req, next))
  {
  }

  lemma ConsumeKeeps(s: Server, req: string, token: string)
    requires ChainInv(s) && Consumable(s, token) && NewRequest(s, req)
    ensures ChainInv(Await(Consume(s, token), req, LoadUser(s.rows[token].user, s.rows[token].family, token)))
  {
    var family := s.rows[token].family;
    var t := Await(Consume(s, token), req, LoadUser(s.rows[token].user, family, token));
    forall r | r in s.pending && IsRotation(s.pending[r])
      ensures s.pending[r].family != family
    {
      assert RotationOk(s.pending[r].family, s.pending[r].parent, s.rows, s.chains);
      assert RowOk(token, s.rows[token], s.chains, s.places);
    }
  }

  lemma IssueKeepsLinks(s: Server, req: string, read: UserRead, family: string, parent: string, token: string)
    requires ChainsLinked(s.chains, s.places) && token != "" && token !in s.places
    requires if parent == "" then NewFamily(s, family)
             else family in s.chains && |s.chains[family]| > 0 && parent == Newest(s.chains[family])
    ensures var t := Issue(s, req, read, family, parent, token); ChainsLinked(t.chains, t.places)
  {
    var t := Issue(s, req, read, family, parent, token);
    var before := if family in s.chains then s.chains[family] else [];
    var after := t.chains[family];
    assert after == before + [Link(token, parent)];
    forall f | f in t.chains
      ensures ChainOk(t.chains[f], f, t.places)
    {
      forall i | 0 <= i < |t.chains[f]|
        ensures LinkOk(t.chains[f], i, f, t.places)
      {
        if f != family {
          assert LinkOk(s.chains[f], i, f, s.places);
        } else if i < |before| {
          assert LinkOk(before, i, f, s.places);
        }
      }
    }
    forall k | k in t.places
      ensures PlaceOk(k, t.places[k], t.chains)
    {
      if k != token {
        assert PlaceOk(k, s.places[k], s.chains);
      }
    }
  }

  lemma IssueKeepsRows(s: Server, req: string, read: UserRead, family: string, parent: string, token: string)
    requires ChainInv(s) && token !in s.places
    requires if parent == "" then NewFamily(s, family) else RotationOk(family, parent, s.rows, s.chains)
    ensures RowsOk(Issue(s, req, read, family, parent, token))
  {
    var t := Issue(s, req, read, family, parent, token);
    forall k | k in t.rows
      ensures RowOk(k, t.rows[k], t.chains, t.places)
    {
      if k != token {
        assert RowOk(k, s.rows[k], s.chains, s.places);
        if parent != "" && s.rows[k].family == family {
          assert s.rows[k].isRevoked;
        }
      }
    }
  }

  lemma IssueKeepsRotations(s: Server, req: string, read: UserRead, family: string, parent: string, token: string)
    requires ChainInv(s) && req in s.pending && token !in s.places
    requires parent == "" ==> NewFamily(s, family) && !IsRotation(s.pending[req])
    requires parent != "" ==> IsRotation(s.pending[req]) && s.pending[req].family == family
    ensures RotationsOk(Issue(s, req, read, family, parent, token))
    ensures DetectionsOk(Issue(s, req, read, family, parent, token))
  {
    var t := Issue(s, req, read, family, parent, token);
    forall r | r in t.pending && IsRotation(t.pending[r])
      ensures RotationOk(t.pending[r].family, t.pending[r].parent, t.rows, t.chains)
    {
      var f := t.pending[r].family;
      assert RotationOk(f, s.pending[r].parent, s.rows, s.chains);
      assert f != family;
      assert LinkOk(s.chains[f], |s.chains[f]| - 1, f, s.places);
    }
  }

  lemma IssueKeeps(s: Server, req: string, read: UserRead, family: string, parent: string, token: string)
    requires ChainInv(s) && req in s.pending && NewToken(s, token)
    requires parent == "" ==> NewFamily(s, family) && !IsRotation(s.pending[req])
    requires parent != "" ==>
      IsRotation(s.pending[req]) && s.pending[req].family == family && s.pending[req].parent == parent
    ensures ChainInv(Issue(s, req, read, family, parent, token))
  {
    if parent != "" {
      assert RotationOk(family, parent, s.rows, s.chains);
    }
    IssueKeepsLinks(s, req, read, family, parent, token);
    IssueKeepsRows(s, req, read, family, parent, token);
    IssueKeepsRotations(s, req, read, family, parent, token);
  }

  lemma RotationKeeps(s: Server, req: string, token: string)
    requires ChainInv(s) && req in s.pending && s.pending[req].IssueNext? && NewToken(s, token)
    ensures ChainInv(Issue(s, req, s.pending[req].read, s.pending[req].family, s.pending[req].parent, token))
  {
    var family, parent := s.pending[req].family, s.pending[req].parent;
    assert RotationOk(family, parent, s.rows, s.chains);
    assert LinkOk(s.chains[family], |s.chains[family]| - 1, family, s.places);
    assert PlaceOk(parent, s.places[parent], s.chains);
    IssueKeeps(s, req, s.pending[req].read, family, parent, token);
  }

  lemma DetectionKeeps(s: Server, req: string, token: string)
    requires ChainInv(s) && req in s.pending && token in s.rows
    ensures ChainInv(Await(s, req, RevokeFamily(s.rows[token].family)))
  {
    assert RowOk(token, s.rows[token], s.chains, s.places);
    AwaitKeeps(s, req, RevokeFamily(s.rows[token].family));
  }

  lemma LoadKeeps(s: Server, req: string)
    requires ChainInv(s) && req in s.pending && s.pending[req].LoadUser?
    ensures ChainInv(Continue(s, req, "", ""))
  {
    var q := s.pending[req];
    if q.user !in s.users || s.users[q.user].suspended {
      AnswerKeeps(s, req, Refused(false));
    } else {
      assert RotationOk(q.family, q.parent, s.rows, s.chains);
      AwaitKeeps(s, req, IssueNext(ReadUser(s, q.user), q.family, q.parent));
    }
  }

  lemma AnswerKeeps(s: Server, req: string, reply: Reply)
    requires ChainInv(s)
    ensures ChainInv(Answer(s, req, reply))
  {
    hide ChainInv;
    RevokingKeeps(s, Answer(s, req, reply));
  }

  lemma CreationKeeps(s: Server, req: string, user: string)
    requires ChainInv(s)
    ensures ChainInv(Await(s.(users := s.users[user := User(1, false)]), req, IssueFirst(UserRead(user, 1, s.clock))))
  {
    hide ChainInv;
    var t := s.(users := s.users[user := User(1, false)]);
    RevokingKeeps(s, t);
    AwaitKeeps(t, req, IssueFirst(UserRead(user, 1, s.clock)));
  }

  lemma BumpKeeps(s: Server, user: string)
    requires ChainInv(s) && user in s.users
    ensures ChainInv(Bump(s, user))
  {
    hide ChainInv;
    RevokingKeeps(s, Bump(s, user));
  }

  lemma RevokedRowsKeep(s: Server, family: string, user: string)
    requires ChainInv(s)
    ensures ChainInv(s.(rows := RevokeOfFamily(s.rows, family))) && ChainInv(s.(rows := RevokeOfUser(s.rows, user)))
  {
    hide ChainInv;
    RevokingKeeps(s, s.(rows := RevokeOfFamily(s.rows, family)));
    RevokingKeeps(s, s.(rows := RevokeOfUser(s.rows, user)));
  }

  lemma ContinueKeeps(s: Server, req: string, freshFamily: string, freshToken: string)
    requires ChainInv(s) && Enabled(s, Resume(req, freshFamily, freshToken))
    ensures ChainInv(Continue(s, req, freshFamily, freshToken))
  {
    hide ChainInv, RevokeOfFamily, RevokeOfUser, Bump, Issue, Answer;
    match s.pending[req]
    case CreateUser(user) =>
      if user in s.users {
        AnswerKeeps(s, req, Refused(false));
      } else {
        CreationKeeps(s, req, user);
      }
    case IssueFirst(read) => IssueKeeps(s, req, read, freshFamily, "", freshToken);
    case IssueNext(_, _, _) => RotationKeeps(s, req, freshToken);
    case LoadUser(_, _, _) => LoadKeeps(s, req);
    case LookUpReuse(token) =>
      if token in s.rows && s.rows[token].isRevoked {
        DetectionKeeps(s, req, token);
      } else {
        AnswerKeeps(s, req, Refused(false));
      }
    case StorePassword(user) =>
      if user in s.users {
        BumpKeeps(s, user);
        AwaitKeeps(Bump(s, user), req, RevokeUser(user));
      } else {
        AnswerKeeps(s, req, Refused(false));
      }
    case BumpVersion(user) =>
      if user in s.users {
        BumpKeeps(s, user);
        AnswerKeeps(Bump(s, user), req, Done);
      } else {
        AnswerKeeps(s, req, Refused(false));
      }
    case RevokeFamily(family) =>
      RevokedRowsKeep(s, family, "");
      AnswerKeeps(s.(rows := RevokeOfFamily(s.rows, family)), req, Refused(true));
    case RevokeUser(user) =>
      RevokedRowsKeep(s, "", user);
      AnswerKeeps(s.(rows := RevokeOfUser(s.rows, user)), req, Done);
  }

  lemma StartKeeps(s: Server, a: Action)
    requires ChainInv(s) && Enabled(s, a)
    requires a.Register? || a.Login? || a.LogoutAll? || a.ChangePassword?
    ensures ChainInv(Apply(s, a))
  {
    match a {
      case Register(req, user) =>
        if user !in s.users {
          AwaitKeeps(s, req, CreateUser(user));
        } else {
          RevokingKeeps(s, Apply(s, a));
        }
      case Login(req, user, ok) =>
        if user !in s.users || !ok || s.users[user].suspended {
          RevokingKeeps(s, Apply(s, a));
        } else {
          AwaitKeeps(s, req, IssueFirst(ReadUser(s, user)));
        }
      case LogoutAll(req, user) =>
        var s' := s.(rows := RevokeOfUser(s.rows, user));
        RevokingKeeps(s, s');
        AwaitKeeps(s', req, BumpVersion(user));
      case ChangePassword(req, user, ok) =>
        if user !in s.users || !ok {
          RevokingKeeps(s, Apply(s, a));
        } else {
          AwaitKeeps(s, req, StorePassword(user));
        }
    }
  }

  lemma RefreshKeeps(s: Server, req: string, token: string)
    requires ChainInv(s) && NewRequest(s, req)
    ensures ChainInv(PresentToken(s, req, token))
  {
    if token == "" {
      RevokingKeeps(s, PresentToken(s, req, token));
    } else if Consumable(s, token) {
      ConsumeKeeps(s, req, token);
    } else {
      AwaitKeeps(s, req, LookUpReuse(token));
    }
  }

  lemma ApplyKeeps(s: Server, a: Action)
    requires ChainInv(s) && Enabled(s, a)
    ensures ChainInv(Apply(s, a))
  {
    match a {
      case Resume(req, family, token) => ContinueKeeps(s, req, family, token);
      case Refresh(req, token) => RefreshKeeps(s, req, token);
      case Logout(_, _) => RevokingKeeps(s, Apply(s, a));
      case SetStatus(_, _) => RevokingKeeps(s, Apply(s, a));
      case Sweep(_) => RevokingKeeps(s, Apply(s, a));
      case Wait(_) => RevokingKeeps(s, Apply(s, a));
      case _ => StartKeeps(s, a);
    }
  }

  lemma TimeKeeps(s: Server, clock: nat)
    requires ChainInv(s)
    ensures ChainInv(s.(clock := clock))
  {
  }

  lemma StepKeepsChains(s: Server, a: Action)
    requires ChainInv(s) && Enabled(s, a)
    ensures ChainInv(Step(s, a))
  {
    ApplyKeeps(s, a);
    TimeKeeps(Apply(s, a), Step(s, a).clock);
  }

  lemma {:induction false} RunKeepsChains(s: Server, run: seq<Action>, t: Server)
    requires ChainInv(s) && Leads(s, run, t)
    ensures ChainInv(t)
    decreases |run|
  {
    if run != [] {
      StepKeepsChains(s, run[0]);
      RunKeepsChains(Step(s, run[0]), run[1..], t);
    }
  }

  lemma {:induction false} LeadsOneMore(s: Server, run: seq<Action>, t: Server, a: Action)
    requires Leads(s, run, t) && Enabled(t, a)
    ensures Leads(s, run + [a], Step(t, a))
    decreases |run|
  {
    if run == [] {
      assert Leads(Step(t, a), [], Step(t, a));
      assert ([a])[1..] == [];
    } else {
      LeadsOneMore(Step(s, run[0]), run[1..], t, a);
      assert (run + [a])[1..] == run[1..] + [a];
    }
  }

  lemma ReachableOneMore(s: Server, a: Action)
    requires Reachable(s) && Enabled(s, a)
    ensures Reachable(Step(s, a))
  {
    var run :| Leads(EMPTY, run, s);
    LeadsOneMore(EMPTY, run, s, a);
  }
}

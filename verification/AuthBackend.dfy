/** The authentication service as it changes its collections, one database call per method. */
module AuthBackend {
  import opened RefreshTokens

  class AuthService {
    var clock: nat
    var users: map<string, User>
    var rows: map<string, Row>
    var pending: map<string, Request>
    var replies: map<string, Reply>
    ghost var signed: set<UserRead>
    ghost var chains: map<string, seq<Link>>
    ghost var places: map<string, Place>

    ghost function State(): Server
      reads this
    {
      Server(clock, users, rows, pending, replies, signed, chains, places)
    }

    constructor ()
      ensures State() == EMPTY
    {
      clock, users, rows, pending, replies := 0, map[], map[], map[], map[];
      signed, chains, places := {}, map[], map[];
    }

    // ----- Collections -----

    /** Finds an unrevoked, unexpired row and revokes it, in one call; answers the row as it was. */
    method FindOneAndRevoke(token: string) returns (found: bool, row: Row)
      modifies this`rows
      ensures found == Consumable(old(State()), token)
      ensures found ==> row == old(rows)[token] && State() == Consume(old(State()), token)
      ensures !found ==> rows == old(rows)
    {
      row := Row("", "", true, 0);
      found := token in rows && !rows[token].isRevoked && clock < rows[token].expiresAt;
      if found {
        row := rows[token];
        rows := rows[token := row.(isRevoked := true)];
      }
    }

    /** Takes the power to refresh from the tokens of the family, and from no others. */
    method RevokeManyOfFamily(family: string)
      modifies this`rows
      ensures rows == RevokeOfFamily(old(rows), family) && rows.Keys == old(rows).Keys
      ensures forall t :: Consumable(State(), t) <==> Consumable(old(State()), t) && old(rows)[t].family != family
      ensures forall t :: t in rows && rows[t].family != family ==> rows[t] == old(rows)[t]
    {
      rows := map t | t in rows :: if rows[t].family == family then rows[t].(isRevoked := true) else rows[t];
    }

    /** Takes the power to refresh from the tokens of the user, and from no others. */
    method RevokeManyOfUser(user: string)
      modifies this`rows
      ensures rows == RevokeOfUser(old(rows), user) && rows.Keys == old(rows).Keys
      ensures forall t :: Consumable(State(), t) <==> Consumable(old(State()), t) && old(rows)[t].user != user
      ensures forall t :: t in rows && rows[t].user != user ==> rows[t] == old(rows)[t]
    {
      rows := map t | t in rows :: if rows[t].user == user then rows[t].(isRevoked := true) else rows[t];
    }

    method IncrementTokenVersion(user: string) returns (found: bool)
      modifies this`users
      ensures found == (user in old(users))
      ensures State() == if found then Bump(old(State()), user) else old(State())
      ensures found ==> user in users && users[user].tokenVersion == old(users)[user].tokenVersion + 1
    {
      found := user in users;
      if found {
        users := users[user := users[user].(tokenVersion := users[user].tokenVersion + 1)];
      }
    }

    // ----- Requests -----

    method Reply(req: string, reply: RefreshTokens.Reply)
      modifies this`pending, this`replies
      ensures State() == Answer(old(State()), req, reply)
    {
      pending := pending - {req};
      replies := replies[req := reply];
    }

    method Tick()
      modifies this`clock
      ensures State() == old(State()).(clock := old(clock) + 1)
    {
      clock := clock + 1;
    }

    method IssueTokenPair(req: string, read: UserRead, family: string, ghost parent: string, token: string)
      modifies this
      ensures State() == Issue(old(State()), req, read, family, parent, token)
    {
      ghost var before := if family in chains then chains[family] else [];
      rows := rows[token := Row(read.user, family, false, clock + SEVEN_DAYS)];
      signed := signed + {read};
      chains := chains[family := before + [Link(token, parent)]];
      places := places[token := Place(family, |before|)];
      Reply(req, Issued(read, token));
    }

    method RegisterUser(req: string, user: string)
      requires NewRequest(State(), req)
      modifies this
      ensures State() == Step(old(State()), Action.Register(req, user))
    {
      if user in users {
        Reply(req, Refused(false));
      } else {
        pending := pending[req := CreateUser(user)];
      }
      Tick();
    }

    /** The save of a new account, under the unique index over addresses. */
    method ContinueRegistration(req: string, freshFamily: string, freshToken: string)
      requires Enabled(State(), Resume(req, freshFamily, freshToken)) && pending[req].CreateUser?
      modifies this
      ensures State() == Step(old(State()), Resume(req, freshFamily, freshToken))
    {
      var user := pending[req].user;
      if user in users {
        Reply(req, Refused(false));
      } else {
        users := users[user := User(1, false)];
        pending := pending[req := IssueFirst(UserRead(user, 1, clock))];
      }
      Tick();
    }

    method Login(req: string, user: string, passwordOk: bool)
      requires NewRequest(State(), req)
      modifies this
      ensures State() == Step(old(State()), Action.Login(req, user, passwordOk))
    {
      if user !in users {
        Reply(req, Refused(false));
      } else if !passwordOk {
        Reply(req, Refused(false));
      } else if users[user].suspended {
        Reply(req, Refused(false));
      } else {
        var v := users[user].tokenVersion;
        if v == 0 {
          v := 1;
        }
        pending := pending[req := IssueFirst(UserRead(user, v, clock))];
      }
      Tick();
    }

    method RefreshToken(req: string, rawToken: string)
      requires NewRequest(State(), req)
      modifies this
      ensures State() == Step(old(State()), Refresh(req, rawToken))
    {
      if rawToken == "" {
        Reply(req, Refused(false));
      } else {
        var consumed, row := FindOneAndRevoke(rawToken);
        if consumed {
          pending := pending[req := LoadUser(row.user, row.family, rawToken)];
        } else {
          pending := pending[req := LookUpReuse(rawToken)];
        }
      }
      Tick();
    }

    /** `refreshToken` after its consuming call: reuse check, family revocation, user check, issue. */
    method ContinueRefresh(req: string, freshFamily: string, freshToken: string)
      requires Enabled(State(), Resume(req, freshFamily, freshToken))
      requires IsRotation(pending[req]) || pending[req].LookUpReuse? || pending[req].RevokeFamily?
      modifies this
      ensures State() == Step(old(State()), Resume(req, freshFamily, freshToken))
    {
      match pending[req] {
        case LookUpReuse(token) =>
          if token in rows && rows[token].isRevoked {
            pending := pending[req := RevokeFamily(rows[token].family)];
          } else {
            Reply(req, Refused(false));
          }
        case RevokeFamily(family) =>
          RevokeManyOfFamily(family);
          Reply(req, Refused(true));
        case LoadUser(user, family, parent) =>
          if user !in users || users[user].suspended {
            Reply(req, Refused(false));
          } else {
            var v := users[user].tokenVersion;
            if v == 0 {
              v := 1;
            }
            pending := pending[req := IssueNext(UserRead(user, v, clock), family, parent)];
          }
        case IssueNext(read, family, parent) =>
          IssueTokenPair(req, read, family, parent, freshToken);
      }
      Tick();
    }

    /** The issuing call of a login or a registration, with a new family. */
    method ContinueLogin(req: string, freshFamily: string, freshToken: string)
      requires Enabled(State(), Resume(req, freshFamily, freshToken)) && pending[req].IssueFirst?
      modifies this
      ensures State() == Step(old(State()), Resume(req, freshFamily, freshToken))
    {
      IssueTokenPair(req, pending[req].read, freshFamily, "", freshToken);
      Tick();
    }

    method Logout(req: string, rawToken: string)
      requires NewRequest(State(), req)
      modifies this
      ensures State() == Step(old(State()), Action.Logout(req, rawToken))
    {
      if rawToken in rows {
        rows := rows[rawToken := rows[rawToken].(isRevoked := true)];
      }
      Reply(req, Done);
      Tick();
    }

    method LogoutAll(req: string, user: string)
      requires NewRequest(State(), req)
      modifies this
      ensures State() == Step(old(State()), Action.LogoutAll(req, user))
    {
      RevokeManyOfUser(user);
      pending := pending[req := BumpVersion(user)];
      Tick();
    }

    method ChangePassword(req: string, user: string, accepted: bool)
      requires NewRequest(State(), req)
      modifies this
      ensures State() == Step(old(State()), Action.ChangePassword(req, user, accepted))
    {
      if user !in users || !accepted {
        Reply(req, Refused(false));
      } else {
        pending := pending[req := StorePassword(user)];
      }
      Tick();
    }

    /** The later calls of a logout of all sessions and of a change of password. */
    method ContinueRevocation(req: string, freshFamily: string, freshToken: string)
      requires Enabled(State(), Resume(req, freshFamily, freshToken))
      requires pending[req].BumpVersion? || pending[req].StorePassword? || pending[req].RevokeUser?
      modifies this
      ensures State() == Step(old(State()), Resume(req, freshFamily, freshToken))
    {
      match pending[req] {
        case BumpVersion(user) =>
          var found := IncrementTokenVersion(user);
          Reply(req, if found then Done else Refused(false));
        case StorePassword(user) =>
          var found := IncrementTokenVersion(user);
          if found {
            pending := pending[req := RevokeUser(user)];
          } else {
            Reply(req, Refused(false));
          }
        case RevokeUser(user) =>
          RevokeManyOfUser(user);
          Reply(req, Done);
      }
      Tick();
    }
  }
}

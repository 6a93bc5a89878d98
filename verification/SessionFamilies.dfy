/** What the refresh-token store guarantees about a token family, over every run of interleaved requests. */
module SessionFamilies {
  import opened RefreshTokens

  function LiveTokens(s: Server, family: string): set<string> {
    set t | t in s.rows && s.rows[t].family == family && !s.rows[t].isRevoked
  }

  function Rotations(s: Server, family: string): set<string> {
    set r | r in s.pending && IsRotation(s.pending[r]) && s.pending[r].family == family
  }

  predicate Dead(s: Server, family: string) {
    family in s.chains && LiveTokens(s, family) == {} && Rotations(s, family) == {}
  }

  lemma ReachableKeeps(s: Server)
    requires Reachable(s)
    ensures ChainInv(s)
  {
    var run :| Leads(EMPTY, run, s);
    RunKeepsChains(EMPTY, run, s);
  }

  lemma SubsetOfSingleton<T>(s: set<T>, x: T)
    requires s <= {x}
    ensures |s| <= 1
  {
    if s != {} {
      assert s == {x};
    }
  }

  /** A family never has more than one token that can still be used or is being replaced. */
  lemma FamilyBudget(s: Server, family: string)
    requires Reachable(s)
    ensures |LiveTokens(s, family)| + |Rotations(s, family)| <= 1
  {
    ReachableKeeps(s);
    if r :| r in Rotations(s, family) {
      assert RotationOk(family, s.pending[r].parent, s.rows, s.chains);
      forall t | t in s.rows && s.rows[t].family == family
        ensures s.rows[t].isRevoked
      {
        assert RowOk(t, s.rows[t], s.chains, s.places);
      }
      SubsetOfSingleton(Rotations(s, family), r);
    } else if t :| t in LiveTokens(s, family) {
      assert RowOk(t, s.rows[t], s.chains, s.places);
      forall k | k in LiveTokens(s, family)
        ensures k == t
      {
        assert RowOk(k, s.rows[k], s.chains, s.places);
      }
      SubsetOfSingleton(LiveTokens(s, family), t);
    }
  }

  /**
   The tokens of all families are distinct, each was issued for the one just before it in its
   family, and no token was ever exchanged twice.
   */
  lemma ChainIsLinear(s: Server, f: string, i: nat, g: string, j: nat)
    requires Reachable(s)
    requires f in s.chains && i < |s.chains[f]| && g in s.chains && j < |s.chains[g]|
    ensures s.chains[f][i].token == s.chains[g][j].token ==> f == g && i == j
    ensures s.chains[f][i].parent == if i == 0 then "" else s.chains[f][i - 1].token
    ensures s.chains[f][i].parent == s.chains[g][j].parent != "" ==> f == g && i == j
  {
    ReachableKeeps(s);
    assert LinkOk(s.chains[f], i, f, s.places) && LinkOk(s.chains[g], j, g, s.places);
    if i > 0 && j > 0 {
      assert LinkOk(s.chains[f], i - 1, f, s.places) && LinkOk(s.chains[g], j - 1, g, s.places);
    }
  }

  /** A stored token that is not revoked is the newest of its family, and every older one is revoked. */
  lemma OnlyTheNewestIsLive(s: Server, token: string)
    requires Reachable(s) && token in s.rows
    ensures
      var f := s.rows[token].family;
      && f in s.chains
      && |s.chains[f]| > 0
      && (exists i :: 0 <= i < |s.chains[f]| && s.chains[f][i].token == token)
      && (!s.rows[token].isRevoked ==> s.chains[f][|s.chains[f]| - 1].token == token)
  {
    ReachableKeeps(s);
    assert RowOk(token, s.rows[token], s.chains, s.places);
    assert PlaceOk(token, s.places[token], s.chains);
  }

  // ----- A dead family stays dead -----

  /** The two halves of `Dead`, row by row and request by request. */
  ghost predicate NoneLive(rows: map<string, Row>, family: string) {
    forall t :: t in rows && rows[t].family == family ==> rows[t].isRevoked
  }

  ghost predicate NoneRotating(pending: map<string, Request>, family: string) {
    forall r :: r in pending && IsRotation(pending[r]) ==> pending[r].family != family
  }

  lemma DeadMeans(s: Server, family: string)
    ensures Dead(s, family) <==> family in s.chains && NoneLive(s.rows, family) && NoneRotating(s.pending, family)
  {
    forall t | t in s.rows && s.rows[t].family == family
      ensures s.rows[t].isRevoked || t in LiveTokens(s, family)
    {
    }
    forall r | r in s.pending && IsRotation(s.pending[r])
      ensures s.pending[r].family != family || r in Rotations(s, family)
    {
    }
  }

  lemma RevokingKeepsDead(rows: map<string, Row>, family: string, revokedFamily: string, revokedUser: string)
    requires NoneLive(rows, family)
    ensures NoneLive(RevokeOfFamily(rows, revokedFamily), family)
    ensures NoneLive(RevokeOfUser(rows, revokedUser), family)
  {
  }

  lemma ContinueKeepsDead(s: Server, req: string, freshFamily: string, freshToken: string, family: string)
    requires Enabled(s, Resume(req, freshFamily, freshToken)) && family in s.chains
    requires NoneLive(s.rows, family) && NoneRotating(s.pending, family)
    ensures var t := Continue(s, req, freshFamily, freshToken);
      family in t.chains && NoneLive(t.rows, family) && NoneRotating(t.pending, family)
  {
    match s.pending[req]
    case RevokeFamily(f) => RevokingKeepsDead(s.rows, family, f, "");
    case RevokeUser(u) => RevokingKeepsDead(s.rows, family, "", u);
    case IssueNext(_, _, _) => IssueKeepsDead(s, req, freshFamily, freshToken, family);
    case IssueFirst(_) => IssueKeepsDead(s, req, freshFamily, freshToken, family);
    case _ => UserCallKeepsDead(s, req, freshFamily, freshToken, family);
  }

  lemma IssueKeepsDead(s: Server, req: string, freshFamily: string, freshToken: string, family: string)
    requires Enabled(s, Resume(req, freshFamily, freshToken)) && family in s.chains
    requires s.pending[req].IssueFirst? || s.pending[req].IssueNext?
    requires NoneLive(s.rows, family) && NoneRotating(s.pending, family)
    ensures var t := Continue(s, req, freshFamily, freshToken);
      family in t.chains && NoneLive(t.rows, family) && NoneRotating(t.pending, family)
  {
    assert s.pending[req].IssueNext? ==> s.pending[req].family != family;
  }

  lemma UserCallKeepsDead(s: Server, req: string, freshFamily: string, freshToken: string, family: string)
    requires req in s.pending && family in s.chains && var q := s.pending[req];
      q.CreateUser? || q.LoadUser? || q.LookUpReuse? || q.BumpVersion? || q.StorePassword?
    requires NoneLive(s.rows, family) && NoneRotating(s.pending, family)
    ensures var t := Continue(s, req, freshFamily, freshToken);
      family in t.chains && NoneLive(t.rows, family) && NoneRotating(t.pending, family)
  {
    assert s.pending[req].LoadUser? ==> s.pending[req].family != family;
  }

  lemma ApplyKeepsDead(s: Server, a: Action, family: string)
    requires Enabled(s, a) && family in s.chains
    requires NoneLive(s.rows, family) && NoneRotating(s.pending, family)
    ensures var t := Apply(s, a);
      family in t.chains && NoneLive(t.rows, family) && NoneRotating(t.pending, family)
  {
    if a.Resume? {
      ContinueKeepsDead(s, a.req, a.freshFamily, a.freshToken, family);
    } else if a.Refresh? && Consumable(s, a.token) {
      assert s.rows[a.token].family != family;
    }
  }

  lemma StepKeepsDead(s: Server, a: Action, family: string)
    requires Enabled(s, a) && Dead(s, family)
    ensures Dead(Step(s, a), family)
  {
    DeadMeans(s, family);
    ApplyKeepsDead(s, a, family);
    DeadMeans(Step(s, a), family);
  }

  lemma {:induction false} DeadForever(s: Server, run: seq<Action>, t: Server, family: string)
    requires ChainInv(s) && Leads(s, run, t) && Dead(s, family)
    ensures Dead(t, family)
    decreases |run|
  {
    if run != [] {
      StepKeepsChains(s, run[0]);
      StepKeepsDead(s, run[0], family);
      DeadForever(Step(s, run[0]), run[1..], t, family);
    }
  }

  /** No token of a dead family, at any later time, is accepted for a new pair of tokens. */
  lemma DeadFamilyIsRefused(s: Server, run: seq<Action>, t: Server, family: string, token: string, req: string)
    requires Reachable(s) && Leads(s, run, t) && Dead(s, family)
    requires token in t.places && t.places[token].family == family && NewRequest(t, req)
    ensures Step(t, Refresh(req, token)).pending == t.pending[req := LookUpReuse(token)]
    ensures Step(t, Refresh(req, token)).rows == t.rows
  {
    ReachableKeeps(s);
    DeadForever(s, run, t, family);
    RunKeepsChains(s, run, t);
    assert PlaceOk(token, t.places[token], t.chains);
    DeadMeans(t, family);
    if token in t.rows {
      assert RowOk(token, t.rows[token], t.chains, t.places);
    }
  }

  // ----- Reuse detection -----

  /**
   The revocation that follows a detected reuse ends the family exactly when no rotation of that
   family is between its consuming and its issuing call.
   */
  lemma ReuseEndsFamilyIff(s: Server, req: string, family: string, freshFamily: string, freshToken: string)
    requires Reachable(s) && Enabled(s, Resume(req, freshFamily, freshToken))
    requires s.pending[req] == RevokeFamily(family)
    ensures Dead(Step(s, Resume(req, freshFamily, freshToken)), family) <==> Rotations(s, family) == {}
  {
    ReachableKeeps(s);
    var t := Step(s, Resume(req, freshFamily, freshToken));
    assert t.pending == s.pending - {req};
    assert Rotations(t, family) == Rotations(s, family);
    assert LiveTokens(t, family) == {};
  }

  /** Detected reuse with no rotation in flight ends the session for good. */
  lemma ReuseEndsSession(s: Server, req: string, family: string, freshFamily: string, freshToken: string,
                         run: seq<Action>, t: Server)
    requires Reachable(s) && Enabled(s, Resume(req, freshFamily, freshToken))
    requires s.pending[req] == RevokeFamily(family) && Rotations(s, family) == {}
    requires Leads(Step(s, Resume(req, freshFamily, freshToken)), run, t)
    ensures Dead(t, family)
    ensures forall token :: token in t.places && t.places[token].family == family ==> !Consumable(t, token)
  {
    var a := Resume(req, freshFamily, freshToken);
    ReachableKeeps(s);
    StepKeepsChains(s, a);
    ReuseEndsFamilyIff(s, req, family, freshFamily, freshToken);
    DeadForever(Step(s, a), run, t, family);
    RunKeepsChains(Step(s, a), run, t);
    DeadMeans(t, family);
    forall token | token in t.places && t.places[token].family == family
      ensures !Consumable(t, token)
    {
      if token in t.rows {
        assert RowOk(token, t.rows[token], t.chains, t.places);
      }
    }
  }

  /**
   The other side: a rotation that has read its user when the family is revoked still issues,
   and its token works afterwards although the reuse was detected.
   */
  lemma ReuseMissesRotation(s: Server, req: string, rotation: string, family: string, f1: string, t1: string,
      f2: string, t2: string)
    requires Reachable(s) && Enabled(s, Resume(req, f1, t1))
    requires s.pending[req] == RevokeFamily(family)
    requires rotation in s.pending && s.pending[rotation].IssueNext? && s.pending[rotation].family == family
    requires NewFamily(s, f2) && NewToken(s, t2)
    ensures
      var revoked := Step(s, Resume(req, f1, t1));
      && Enabled(revoked, Resume(rotation, f2, t2))
      && Consumable(Step(revoked, Resume(rotation, f2, t2)), t2)
      && Step(revoked, Resume(rotation, f2, t2)).rows[t2].family == family
  {
  }

  /** A rotation that has not even read its user by then does so too, if the account is active. */
  lemma ReuseMissesEarlyRotation(s: Server, req: string, rotation: string, family: string, f1: string, t1: string,
      f2: string, t2: string)
    requires Reachable(s) && Enabled(s, Resume(req, f1, t1))
    requires s.pending[req] == RevokeFamily(family)
    requires rotation in s.pending && s.pending[rotation].LoadUser? && s.pending[rotation].family == family
    requires s.pending[rotation].user in s.users && !s.users[s.pending[rotation].user].suspended
    requires NewFamily(s, f2) && NewToken(s, t2)
    ensures
      var revoked := Step(s, Resume(req, f1, t1));
      var read := Step(revoked, Resume(rotation, f2, t2));
      && Enabled(revoked, Resume(rotation, f2, t2)) && Enabled(read, Resume(rotation, f2, t2))
      && Consumable(Step(read, Resume(rotation, f2, t2)), t2)
      && Step(read, Resume(rotation, f2, t2)).rows[t2].family == family
  {
  }

  /** The race starts from any live token: it is presented twice while its rotation is under way. */
  lemma RaceStarts(s: Server, token: string, a: string, b: string, x: string, g: string)
    requires Reachable(s) && Consumable(s, token) && token != ""
    requires a != b && NewRequest(s, a) && NewRequest(s, b) && NewToken(s, x) && NewFamily(s, g) && x != token
    requires s.rows[token].user in s.users && !s.users[s.rows[token].user].suspended
    ensures
      var s1 := Step(s, Refresh(a, token));
      var s2 := Step(s1, Refresh(b, token));
      var s3 := Step(s2, Resume(b, g, x));
      var s4 := Step(s3, Resume(a, g, x));
      && Reachable(s4)
      && s4.pending[b] == RevokeFamily(s.rows[token].family)
      && s4.pending[a].IssueNext? && s4.pending[a].family == s.rows[token].family
  {
    var family := s.rows[token].family;
    var s1 := Step(s, Refresh(a, token));
    ReachableOneMore(s, Refresh(a, token));
    assert s1.pending[a] == LoadUser(s.rows[token].user, family, token);
    assert s1.rows[token].isRevoked;
    RaceContinues(s1, token, a, b, x, g);
  }

  lemma RaceContinues(s1: Server, token: string, a: string, b: string, x: string, g: string)
    requires Reachable(s1) && a in s1.pending && token != ""
    requires token in s1.rows && s1.rows[token].isRevoked
    requires s1.pending[a] == LoadUser(s1.rows[token].user, s1.rows[token].family, token)
    requires a != b && NewRequest(s1, b) && NewToken(s1, x) && NewFamily(s1, g) && x != token
    requires s1.rows[token].user in s1.users && !s1.users[s1.rows[token].user].suspended
    ensures
      var s2 := Step(s1, Refresh(b, token));
      var s3 := Step(s2, Resume(b, g, x));
      var s4 := Step(s3, Resume(a, g, x));
      && Reachable(s4)
      && s4.pending[b] == RevokeFamily(s1.rows[token].family)
      && s4.pending[a].IssueNext? && s4.pending[a].family == s1.rows[token].family
  {
    var s2 := Step(s1, Refresh(b, token));
    ReachableOneMore(s1, Refresh(b, token));
    assert s2 == s1.(clock := s1.clock + 1, pending := s1.pending[b := LookUpReuse(token)]);
    DetectionContinues(s2, token, b, x, g);
    var s3 := Step(s2, Resume(b, g, x));
    assert s3.pending[a] == s1.pending[a];
    RotationContinues(s3, a, x, g);
  }

  lemma DetectionContinues(s: Server, token: string, b: string, x: string, g: string)
    requires Reachable(s) && b in s.pending && s.pending[b] == LookUpReuse(token)
    requires token in s.rows && s.rows[token].isRevoked
    requires NewToken(s, x) && NewFamily(s, g)
    ensures
      var t := Step(s, Resume(b, g, x));
      Reachable(t) && t == s.(clock := s.clock + 1, pending := s.pending[b := RevokeFamily(s.rows[token].family)])
  {
    ReachableOneMore(s, Resume(b, g, x));
  }

  lemma RotationContinues(s: Server, a: string, x: string, g: string)
    requires Reachable(s) && a in s.pending && s.pending[a].LoadUser?
    requires s.pending[a].user in s.users && !s.users[s.pending[a].user].suspended
    requires NewToken(s, x) && NewFamily(s, g)
    ensures
      var t := Step(s, Resume(a, g, x));
      var q := s.pending[a];
      && Reachable(t)
      && t.pending == s.pending[a := IssueNext(ReadUser(s, q.user), q.family, q.parent)]
  {
    ReachableOneMore(s, Resume(a, g, x));
  }
}

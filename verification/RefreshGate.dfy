/**
 The page's side of token refresh: one promise slot that all callers share, the timer that
 refreshes early, and the cookie that the browser attaches to a refresh.
 */
module RefreshGate {

  /**
   `slot` names the request behind the shared promise, "" when there is none. `refreshes` holds the
   refresh requests sent and not yet settled, with the cookie each one carried; `logins` the login
   and registration requests, with their user; `releases` the scheduled clearings of the slot.
   */
  datatype Page = Page(
    hasToken: bool,
    slot: string,
    timerArmed: bool,
    cookie: string,
    refreshes: map<string, string>,
    logins: map<string, string>,
    releases: set<string>)

  const FIRST_LOAD := Page(false, "", false, "", map[], map[], {})

  /** No token, one whose expiry cannot be decoded, or one with an expiry. */
  datatype AccessToken = NoToken | Plain | Timed

  function SetAccessToken(p: Page, token: AccessToken): Page {
    p.(hasToken := token != NoToken, timerArmed := token == Timed)
  }

  function StartRefresh(p: Page, req: string): Page {
    p.(slot := req, refreshes := p.refreshes[req := p.cookie])
  }

  function GetOrStart(p: Page, req: string): Page {
    if p.slot == "" then StartRefresh(p, req) else p
  }

  function TimerFires(p: Page, req: string): Page {
    var q := p.(timerArmed := false);
    if p.hasToken && p.slot == "" then StartRefresh(q, req) else q
  }

  /** A refresh settles: the answer's cookie is stored, and the slot's clearing is scheduled, not done. */
  function Settle(p: Page, req: string, cookie: string, token: AccessToken): Page {
    SetAccessToken(p, token).(cookie := cookie, refreshes := p.refreshes - {req}, releases := p.releases + {req})
  }

  function Release(p: Page, req: string): Page {
    p.(slot := "", releases := p.releases - {req})
  }

  function SendLogin(p: Page, req: string, user: string): Page {
    p.(logins := p.logins[req := user])
  }

  function LoginSettles(p: Page, req: string, token: AccessToken, cookie: string): Page {
    var q := p.(logins := p.logins - {req});
    if token != NoToken then SetAccessToken(q, token).(cookie := cookie) else q
  }

  /** Either the slot is free and nothing is going on, or it is held by one request, or by its clearing. */
  predicate GateOk(p: Page) {
    if p.slot == "" then p.refreshes == map[] && p.releases == {}
    else (p.refreshes.Keys == {p.slot} && p.releases == {}) || (p.refreshes == map[] && p.releases == {p.slot})
  }

  /** The module variables of the page, changed in place. */
  class ApiClient {
    var inMemoryAccessToken: bool
    var refreshPromise: string
    var proactiveRefreshTimer: bool
    var cookie: string
    var inFlight: map<string, string>
    var loginsInFlight: map<string, string>
    var microtasks: set<string>

    ghost function State(): Page
      reads this
    {
      Page(inMemoryAccessToken, refreshPromise, proactiveRefreshTimer, cookie, inFlight, loginsInFlight, microtasks)
    }

    constructor ()
      ensures State() == FIRST_LOAD && GateOk(State())
    {
      inMemoryAccessToken, refreshPromise, proactiveRefreshTimer, cookie := false, "", false, "";
      inFlight, loginsInFlight, microtasks := map[], map[], {};
    }

    method SetToken(token: AccessToken)
      modifies this`inMemoryAccessToken, this`proactiveRefreshTimer
      ensures State() == SetAccessToken(old(State()), token)
      ensures inMemoryAccessToken == (token != NoToken) && proactiveRefreshTimer == (token == Timed)
      ensures GateOk(State()) <==> old(GateOk(State()))
    {
      inMemoryAccessToken := token != NoToken;
      if proactiveRefreshTimer {
        proactiveRefreshTimer := false;
      }
      if token == NoToken {
        return;
      }
      if token == Timed {
        proactiveRefreshTimer := true;
      }
    }

    /** Sends a request with the cookie as it is now; the answers awaited before stay awaited. */
    method PerformTokenRefresh(req: string) returns (promise: string)
      modifies this`inFlight
      ensures promise == req && inFlight == old(inFlight)[req := cookie]
      ensures old(GateOk(State())) && refreshPromise == "" && req != "" ==>
        GateOk(State().(slot := promise)) && State().(slot := promise) == StartRefresh(old(State()), req)
    {
      inFlight := inFlight[req := cookie];
      promise := req;
    }

    /** Every caller gets the promise of the one request in flight; a new one starts only from a free slot. */
    method GetOrStartRefresh(req: string) returns (promise: string)
      requires req != "" && GateOk(State())
      modifies this`refreshPromise, this`inFlight
      ensures State() == GetOrStart(old(State()), req)
      ensures GateOk(State()) && promise == State().slot
      ensures old(State().slot) != "" ==> State() == old(State()) && promise == old(State().slot)
      ensures old(State().slot) == "" ==> inFlight.Keys == {req}
    {
      if refreshPromise == "" {
        refreshPromise := PerformTokenRefresh(req);
      }
      promise := refreshPromise;
    }

    method TimerFired(req: string)
      requires req != "" && GateOk(State())
      modifies this
      ensures State() == TimerFires(old(State()), req) && GateOk(State()) && !proactiveRefreshTimer
      ensures if old(inMemoryAccessToken) && old(refreshPromise) == ""
        then refreshPromise == req && inFlight == map[req := cookie]
        else refreshPromise == old(refreshPromise) && inFlight == old(inFlight)
    {
      proactiveRefreshTimer := false;
      if inMemoryAccessToken && refreshPromise == "" {
        refreshPromise := PerformTokenRefresh(req);
      }
    }

    /** The rest of a refresh once its answer, or its failure, is there. The slot stays taken. */
    method RefreshSettles(req: string, newCookie: string, token: AccessToken)
      requires req in inFlight && GateOk(State())
      modifies this
      ensures State() == Settle(old(State()), req, newCookie, token)
      ensures cookie == newCookie && inMemoryAccessToken == (token != NoToken) && req !in inFlight
      ensures GateOk(State()) && State().slot == old(State().slot)
    {
      cookie := newCookie;
      inFlight := inFlight - {req};
      SetToken(token);
      microtasks := microtasks + {req};
    }

    /** The scheduled clearing. No request is in flight when it runs. */
    method RunMicrotask(req: string)
      requires req in microtasks && GateOk(State())
      modifies this
      ensures State() == Release(old(State()), req) && refreshPromise == "" && req !in microtasks
      ensures GateOk(State()) && old(inFlight) == map[]
    {
      refreshPromise := "";
      microtasks := microtasks - {req};
    }
  }
}

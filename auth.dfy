/** The session part of the bootstrap script (`Auth`, page.js:49-112).  The
    identity library's network calls are not modelled: what they report
    (login succeeded with a token or failed; a refresh renewed the token, did
    not need to, or failed) is an input. */
module Auth {
  import opened Wrappers

  /** `updateTokenConfig.interval`: the refresh period, in milliseconds. */
  const REFRESH_INTERVAL_MS := 2 * 60 * 1000
  /** `updateTokenConfig.scope`: the token is renewed when it has fewer than
      this many seconds of validity left. */
  const MIN_VALIDITY_SECONDS := 2 * 60 + 30

  /** What the interactive login reports. */
  datatype LoginResult = LoginSuccess(token: string) | LoginError

  /** What one `keycloak.updateToken` call reports: success with `refreshed`
      true (and the library now holding a new token), success with `refreshed`
      false, or an error. */
  datatype RefreshResult = Refreshed(token: string) | NotRefreshed | RefreshError

  /** The library's current token after a refresh reported as `r`. */
  function TokenAfter(token: Option<string>, r: RefreshResult): (t: Option<string>)
    ensures r.Refreshed? ==> t == Some(r.token)
    ensures r.RefreshError? ==> t.None?
    ensures t != token ==> r.Refreshed? || r.RefreshError?
  {
    match r
    case Refreshed(t) => Some(t)
    case NotRefreshed => token
    case RefreshError => None
  }

  /** The argument the refresh callback is called with, if it is called. */
  function Notification(r: RefreshResult): Option<string> {
    if r.Refreshed? then Some(r.token) else None
  }

  /** The token state of the identity library as the script sees it. */
  class Session {
    /** `keycloak.token`; None before login and after `clearToken`. */
    var token: Option<string>

    constructor ()
      ensures token == None
    {
      token := None;
    }

    /** `init(callback)`: on success the callback gets the token; on failure
        the error page is shown instead and `ready` is None. */
    method Init(r: LoginResult) returns (ready: Option<string>)
      modifies this
      ensures r.LoginSuccess? ==> token == Some(r.token) && ready == Some(r.token)
      ensures r.LoginError? ==> token == old(token) && ready == None
    {
      if r.LoginSuccess? {
        token := Some(r.token);
        ready := token;
      } else {
        ready := None;
      }
    }

    /** `updateToken(callback)`: refreshed calls back with the current token,
        not refreshed does nothing, an error clears the token and does not
        call back. */
    method UpdateToken(r: RefreshResult) returns (notified: Option<string>)
      modifies this
      ensures r.Refreshed? ==> token == Some(r.token) && notified == Some(r.token)
      ensures r.NotRefreshed? ==> token == old(token) && notified == None
      ensures r.RefreshError? ==> token == None && notified == None
      ensures token == TokenAfter(old(token), r) && notified == Notification(r)
    {
      match r
      case Refreshed(t) =>
        token := Some(t);
        notified := token;
      case NotRefreshed =>
        notified := None;
      case RefreshError =>
        token := None;
        notified := None;
    }

    /** The ticks of `setUpdateTokenInterval` (one at once, then one per
        interval), given the outcome of each: `sent` are the tokens handed to
        the callback, in order. */
    method RunRefreshes(rs: seq<RefreshResult>) returns (sent: seq<string>)
      modifies this
      ensures sent == Notified(rs)
      ensures token == FinalToken(old(token), rs)
    {
      sent := [];
      var i := 0;
      while i < |rs|
        invariant 0 <= i <= |rs|
        invariant sent == Notified(rs[..i])
        invariant token == FinalToken(old(token), rs[..i])
      {
        var notified := UpdateToken(rs[i]);
        NotifiedAppend(rs[..i], rs[i]);
        FinalTokenAppend(old(token), rs[..i], rs[i]);
        assert rs[..i + 1] == rs[..i] + [rs[i]];
        if notified.Some? {
          sent := sent + [notified.value];
        }
        i := i + 1;
      }
      assert rs[..|rs|] == rs;
    }
  }

  /** The token after a series of refreshes. */
  function FinalToken(token: Option<string>, rs: seq<RefreshResult>): Option<string>
    decreases |rs|
  {
    if |rs| == 0 then token else FinalToken(TokenAfter(token, rs[0]), rs[1..])
  }

  /** The tokens a series of refreshes hands to the callback. */
  function Notified(rs: seq<RefreshResult>): seq<string> {
    if |rs| == 0 then []
    else (if rs[0].Refreshed? then [rs[0].token] else []) + Notified(rs[1..])
  }

  lemma {:induction false} FinalTokenAppend(token: Option<string>, rs: seq<RefreshResult>, r: RefreshResult)
    ensures FinalToken(token, rs + [r]) == TokenAfter(FinalToken(token, rs), r)
    decreases |rs|
  {
    if |rs| > 0 {
      assert (rs + [r])[1..] == rs[1..] + [r];
      FinalTokenAppend(TokenAfter(token, rs[0]), rs[1..], r);
    }
  }

  lemma {:induction false} NotifiedAppend(rs: seq<RefreshResult>, r: RefreshResult)
    ensures Notified(rs + [r]) == Notified(rs) + (if r.Refreshed? then [r.token] else [])
  {
    if |rs| > 0 {
      assert (rs + [r])[1..] == rs[1..] + [r];
      NotifiedAppend(rs[1..], r);
    }
  }

  /** Without refresh errors, the last token handed to the callback (and so to
      the App) is the library's current token; with none handed over, the
      token is the one from before. */
  lemma {:induction false} LastNotifiedIsCurrent(token: Option<string>, rs: seq<RefreshResult>)
    requires forall i :: 0 <= i < |rs| ==> !rs[i].RefreshError?
    ensures FinalToken(token, rs) ==
      if |Notified(rs)| == 0 then token else Some(Notified(rs)[|Notified(rs)| - 1])
    decreases |rs|
  {
    if |rs| > 0 {
      LastNotifiedIsCurrent(TokenAfter(token, rs[0]), rs[1..]);
    }
  }

  /** A failed refresh as the last tick leaves no token, whatever came before. */
  lemma ErrorLastClears(token: Option<string>, rs: seq<RefreshResult>)
    requires |rs| > 0 && rs[|rs| - 1].RefreshError?
    ensures FinalToken(token, rs) == None
  {
    assert rs == rs[..|rs| - 1] + [rs[|rs| - 1]];
    FinalTokenAppend(token, rs[..|rs| - 1], rs[|rs| - 1]);
  }

  /** Refreshes that report "not refreshed" never call back and never change
      the token. */
  lemma {:induction false} NotRefreshedIsSilent(token: Option<string>, rs: seq<RefreshResult>)
    requires forall i :: 0 <= i < |rs| ==> rs[i].NotRefreshed?
    ensures Notified(rs) == [] && FinalToken(token, rs) == token
  {
    if |rs| > 0 {
      NotRefreshedIsSilent(token, rs[1..]);
    }
  }
}

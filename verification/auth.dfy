/** The session manager of `AuthContext`: the `token`, `user` and `isAuthenticated` state
    cells and the single storage slot `token` behind them. Decoding a token is an
    uninterpreted function supplied by the caller (the library checks no signature), and
    the clock is a parameter. */
module Auth {
  import opened Common
  import opened Domain

  /** The claims the decoder yields: `exp` (seconds) and the `user` claim, each possibly missing. */
  datatype Claims = Claims(exp: Option<int>, user: Option<Identity>)

  /** A decoder: `None` where `jwtDecode` throws. */
  type Decoder = string -> Option<Claims>

  datatype SessionState = SessionState(
    storage: Option<string>,       // the storage slot `token`
    token: Option<string>,
    user: Option<Identity>,
    isAuthenticated: bool)

  /** An authenticated session always holds the token that is in storage. */
  ghost predicate Consistent(s: SessionState) {
    s.isAuthenticated ==> s.token.Some? && s.token == s.storage
  }

  /** `useState(localStorage.getItem('token'))`, `useState(null)`, `useState(false)`. */
  function Initial(stored: Option<string>): (r: SessionState)
    ensures r.storage == stored && r.token == stored && r.user.None? && !r.isAuthenticated
    ensures Consistent(r)
  {
    SessionState(stored, stored, None, false)
  }

  /** `decoded.exp * 1000 < Date.now()`; a token without `exp` compares as `NaN` and is
      never expired. */
  predicate Expired(c: Claims, now: int) {
    c.exp.Some? && c.exp.value * 1000 < now
  }

  /** `logout()`: the slot is emptied and the session is anonymous. */
  function LoggedOut(s: SessionState): (r: SessionState)
    ensures r.storage.None? && r.token.None? && r.user.None? && !r.isAuthenticated
    ensures Consistent(r)
  {
    SessionState(None, None, None, false)
  }

  /** The mount effect: a stored, non-empty token that decodes and is not expired restores
      the session; one that does not decode or is expired logs out; no token changes nothing. */
  function Restored(s: SessionState, now: int, decode: Decoder): (r: SessionState)
    ensures (s.storage.None? || s.storage == Some("")) ==> r == s
    ensures r.isAuthenticated && !s.isAuthenticated ==>
      s.storage.Some? && decode(s.storage.value).Some? && !Expired(decode(s.storage.value).value, now)
    ensures s.storage.Some? && s.storage.value != "" ==>
      match decode(s.storage.value)
      case Some(c) =>
        if Expired(c, now) then r == LoggedOut(s)
        else r == s.(token := s.storage, user := c.user, isAuthenticated := true)
      case None => r == LoggedOut(s)
    ensures Consistent(s) ==> Consistent(r)
  {
    if s.storage.None? || s.storage.value == "" then s
    else
      match decode(s.storage.value)
      case None => LoggedOut(s)
      case Some(c) =>
        if Expired(c, now) then LoggedOut(s)
        else s.(token := s.storage, user := c.user, isAuthenticated := true)
  }

  /** `login(newToken)`: a decodable token is stored and the session authenticated; an
      undecodable one is only reported, and nothing changes (in particular no logout). */
  function LoggedIn(s: SessionState, newToken: string, decode: Decoder): (r: SessionState)
    ensures decode(newToken).None? ==> r == s
    ensures decode(newToken).Some? ==>
      r.storage == Some(newToken) && r.token == Some(newToken) &&
      r.user == decode(newToken).value.user && r.isAuthenticated
    ensures Consistent(s) ==> Consistent(r)
  {
    match decode(newToken)
    case None => s
    case Some(c) => SessionState(Some(newToken), Some(newToken), c.user, true)
  }

  /** Logging out twice is logging out once. */
  lemma LogoutIdempotent(s: SessionState)
    ensures LoggedOut(LoggedOut(s)) == LoggedOut(s)
  {
  }

  /** The expiry comparison is strict: a token whose `exp * 1000` equals the clock is
      still restored. */
  lemma ExpiryBoundary(s: SessionState, exp: int, decode: Decoder)
    requires s.storage.Some? && s.storage.value != ""
    requires decode(s.storage.value).Some? && decode(s.storage.value).value.exp == Some(exp)
    ensures Restored(s, exp * 1000, decode).isAuthenticated
    ensures !Restored(s, exp * 1000 + 1, decode).isAuthenticated
  {
  }

  /** A stored token in the past leaves the session anonymous and clears storage. */
  lemma ExpiredTokenClearsSession(s: SessionState, now: int, decode: Decoder)
    requires s.storage.Some? && s.storage.value != ""
    requires decode(s.storage.value).Some? && Expired(decode(s.storage.value).value, now)
    ensures var r := Restored(s, now, decode);
      r.storage.None? && r.token.None? && r.user.None? && !r.isAuthenticated
  {
  }

  /** A session that logged in with a token that is not expired survives a reload: the
      mount effect restores the same state. */
  lemma LoginSurvivesRestore(s: SessionState, t: string, now: int, decode: Decoder)
    requires t != "" && decode(t).Some? && !Expired(decode(t).value, now)
    ensures Restored(LoggedIn(s, t, decode), now, decode) == LoggedIn(s, t, decode)
  {
  }

  /** The provider's state, with the storage slot as a field. */
  class Session {
    const jwtDecode: Decoder
    var storage: Option<string>
    var token: Option<string>
    var user: Option<Identity>
    var isAuthenticated: bool

    function State(): SessionState
      reads this
    {
      SessionState(storage, token, user, isAuthenticated)
    }

    ghost predicate Valid()
      reads this
    {
      Consistent(State())
    }

    /** The provider's first render, with whatever the slot holds. */
    constructor (stored: Option<string>, decode: Decoder)
      ensures jwtDecode == decode
      ensures State() == Initial(stored) && Valid()
    {
      jwtDecode := decode;
      storage, token, user, isAuthenticated := stored, stored, None, false;
    }

    /** The mount effect, run once at the clock reading `now`. */
    method Restore(now: int)
      requires Valid()
      modifies this
      ensures Valid()
      ensures State() == Restored(old(State()), now, jwtDecode)
    {
      var storedToken := storage;
      if storedToken.Some? && storedToken.value != "" {
        match jwtDecode(storedToken.value) {
          case None =>
            Logout();
          case Some(decoded) =>
            if decoded.exp.Some? && decoded.exp.value * 1000 < now {
              Logout();
            } else {
              token := storedToken;
              user := decoded.user;
              isAuthenticated := true;
            }
        }
      }
    }

    method Login(newToken: string)
      requires Valid()
      modifies this
      ensures Valid()
      ensures State() == LoggedIn(old(State()), newToken, jwtDecode)
    {
      match jwtDecode(newToken) {
        case None =>
        case Some(decoded) =>
          storage := Some(newToken);
          token := Some(newToken);
          user := decoded.user;
          isAuthenticated := true;
      }
    }

    method Logout()
      modifies this
      ensures Valid()
      ensures State() == LoggedOut(old(State()))
    {
      storage := None;
      token := None;
      user := None;
      isAuthenticated := false;
    }
  }
}

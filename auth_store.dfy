/** The persisted client session: `login` accepts a token whose payload
    decodes and has not expired, `logout` resets to the signed-out state,
    and on rehydration the stored token is checked again and either
    re-applied through `login` or discarded through `logout`.

    Decoding the token and reading the clock belong to libraries outside
    this model: the decoder is the function `decode` (`None` where it
    throws) and each reading of the clock is a parameter. */
module AuthStore {
  import opened Common

  /** The token's payload; `None` is an absent (or, for `phone`, null) field. */
  datatype Payload = Payload(
    clientId: int,
    email: string,
    name: string,
    storeId: int,
    nuip: Option<string>,
    phone: Option<string>,
    exp: Option<int>,
    iat: Option<int>)

  /** The payload of a signed-out session. */
  function InitialPayload(): Payload {
    Payload(0, "", "", 0, None, None, None, None)
  }

  /** The four fields of the store. */
  datatype Session = Session(
    token: Option<string>,
    isAuthenticated: bool,
    payload: Payload,
    hasHydrated: bool)

  function InitialSession(): Session {
    Session(None, false, InitialPayload(), false)
  }

  /** `decoded.exp && decoded.exp * 1000 < now`: an absent or 0 expiry
      never expires, and the comparison with the clock is strict. */
  predicate Expired(p: Payload, now: int) {
    p.exp.Some? && p.exp.value != 0 && p.exp.value * 1000 < now
  }

  /** The store's invariant: a signed-in session holds a token. */
  predicate SignedInHasToken(s: Session) {
    s.isAuthenticated ==> s.token.Some?
  }

  /** `login(token)`, given what the decoder makes of `token` and the clock. */
  function AfterLogin(s: Session, token: string, decoded: Option<Payload>, now: int): (r: Session)
    ensures r == s || (decoded.Some? && !Expired(decoded.value, now))
    ensures decoded.Some? && !Expired(decoded.value, now) ==>
      r == s.(token := Some(token), isAuthenticated := true, payload := decoded.value)
  {
    match decoded
    case None => s
    case Some(p) =>
      if Expired(p, now) then s
      else s.(token := Some(token), isAuthenticated := true, payload := p)
  }

  /** `logout()`. */
  function AfterLogout(s: Session): (r: Session)
    ensures !r.isAuthenticated && r.token.None? && r.payload == InitialPayload()
    ensures r.hasHydrated == s.hasHydrated
  {
    s.(token := None, isAuthenticated := false, payload := InitialPayload())
  }

  /** `setHasHydrated(b)`. */
  function WithHasHydrated(s: Session, b: bool): (r: Session)
    ensures r.hasHydrated == b
    ensures r.(hasHydrated := s.hasHydrated) == s
  {
    s.(hasHydrated := b)
  }

  /** The string is truthy. */
  predicate Truthy(t: Option<string>) {
    t.Some? && t.value != ""
  }

  /** The `onRehydrateStorage` callback on the rehydrated state `s`; when
      `available` is false the callback is given no state and does nothing.
      The expiry check reads the clock as `nowCheck`, the nested `login`
      reads it again as `nowLogin`. */
  function Rehydrate(s: Session, available: bool, decode: string -> Option<Payload>,
                     nowCheck: int, nowLogin: int): Session
  {
    if !available then s
    else
      var h := WithHasHydrated(s, true);
      if !Truthy(h.token) then h
      else match decode(h.token.value)
        case None => AfterLogout(h)
        case Some(p) =>
          if Expired(p, nowCheck) then AfterLogout(h)
          else AfterLogin(h, h.token.value, decode(h.token.value), nowLogin)
  }

  /** Only the token is written to storage. */
  function Persisted(s: Session): Option<string> {
    s.token
  }

  /** What the storage layer merges back before the callback runs: the
      initial state with the stored token. */
  function Restored(stored: Option<string>): (s: Session)
    ensures Persisted(s) == stored
  {
    InitialSession().(token := stored)
  }

  // ---------------------------------------------------------------------

  /** An undecodable token leaves the state as it is. */
  lemma LoginUndecodable(s: Session, token: string, now: int)
    ensures AfterLogin(s, token, None, now) == s
  {
  }

  /** An expired token leaves the state as it is; an expiry of exactly
      `now` (in milliseconds) and an expiry of 0 both let the login through. */
  lemma LoginExpiry(s: Session, token: string, p: Payload, now: int)
    ensures Expired(p, now) ==> AfterLogin(s, token, Some(p), now) == s
    ensures p.exp.Some? && p.exp.value * 1000 == now ==> AfterLogin(s, token, Some(p), now).isAuthenticated
    ensures p.exp == Some(0) || p.exp.None? ==> AfterLogin(s, token, Some(p), now).payload == p
  {
  }

  /** `logout` is idempotent and does not touch `hasHydrated`. */
  lemma LogoutIdempotent(s: Session)
    ensures AfterLogout(AfterLogout(s)) == AfterLogout(s)
    ensures AfterLogout(s).(hasHydrated := false) == InitialSession()
  {
  }

  /** `login`, `logout` and `setHasHydrated` keep the invariant, and so
      does the rehydration callback. */
  lemma InvariantKept(s: Session, token: string, decoded: Option<Payload>, now: int, b: bool)
    requires SignedInHasToken(s)
    ensures SignedInHasToken(AfterLogin(s, token, decoded, now))
    ensures SignedInHasToken(AfterLogout(s))
    ensures SignedInHasToken(WithHasHydrated(s, b))
  {
  }

  lemma RehydrateKeepsInvariant(s: Session, available: bool, decode: string -> Option<Payload>,
                                nowCheck: int, nowLogin: int)
    requires SignedInHasToken(s)
    ensures SignedInHasToken(Rehydrate(s, available, decode, nowCheck, nowLogin))
  {
  }

  /** After rehydration with a state: `hasHydrated` is set; without a
      token nothing else changes; an undecodable or expired token ends
      signed out; a token that is still valid when `login` reads the clock
      ends signed in with its payload; and a token that expires between the
      two readings is kept in the store while the session stays signed out,
      because `login` then returns without changing anything. */
  lemma RehydrateOutcome(stored: Option<string>, decode: string -> Option<Payload>,
                         nowCheck: int, nowLogin: int)
    ensures var r := Rehydrate(Restored(stored), true, decode, nowCheck, nowLogin);
      && r.hasHydrated
      && (!Truthy(stored) ==> r == Restored(stored).(hasHydrated := true) && !r.isAuthenticated)
      && (Truthy(stored) && decode(stored.value).None? ==> r == AfterLogout(Restored(stored)).(hasHydrated := true))
      && (Truthy(stored) && decode(stored.value).Some? && Expired(decode(stored.value).value, nowCheck) ==>
            !r.isAuthenticated && r.token.None?)
      && (Truthy(stored) && decode(stored.value).Some? && !Expired(decode(stored.value).value, nowCheck)
            && !Expired(decode(stored.value).value, nowLogin) ==>
            r.isAuthenticated && r.token == stored && r.payload == decode(stored.value).value)
      && (Truthy(stored) && decode(stored.value).Some? && !Expired(decode(stored.value).value, nowCheck)
            && Expired(decode(stored.value).value, nowLogin) ==>
            r == Restored(stored).(hasHydrated := true) && !r.isAuthenticated && r.token == stored)
  {
  }

  /** Reading the clock once (`nowCheck == nowLogin`), a decodable token
      ends signed in exactly when it has not expired. */
  lemma RehydrateSingleClock(stored: Option<string>, decode: string -> Option<Payload>, now: int)
    requires Truthy(stored) && decode(stored.value).Some?
    ensures Rehydrate(Restored(stored), true, decode, now, now).isAuthenticated <==>
      !Expired(decode(stored.value).value, now)
  {
  }

  /** Storage round trip: what is restored persists the token it was given. */
  lemma PersistRoundTrip(s: Session)
    ensures Persisted(Restored(Persisted(s))) == Persisted(s)
    ensures !Restored(Persisted(s)).isAuthenticated
  {
  }

  // ---------------------------------------------------------------------

  /** The store object. */
  class AuthStoreState {
    var token: Option<string>
    var isAuthenticated: bool
    var payload: Payload
    var hasHydrated: bool

    function State(): Session
      reads this
    {
      Session(token, isAuthenticated, payload, hasHydrated)
    }

    constructor ()
      ensures State() == InitialSession()
    {
      token, isAuthenticated, payload, hasHydrated := None, false, InitialPayload(), false;
    }

    method SetHasHydrated(b: bool)
      modifies this
      ensures State() == WithHasHydrated(old(State()), b)
    {
      hasHydrated := b;
    }

    method Login(t: string, decode: string -> Option<Payload>, now: int)
      modifies this
      ensures State() == AfterLogin(old(State()), t, decode(t), now)
      ensures SignedInHasToken(old(State())) ==> SignedInHasToken(State())
    {
      var decoded := decode(t);
      if decoded.None? {
        return;
      }
      if Expired(decoded.value, now) {
        return;
      }
      token, isAuthenticated, payload := Some(t), true, decoded.value;
    }

    method Logout()
      modifies this
      ensures State() == AfterLogout(old(State()))
      ensures SignedInHasToken(State())
    {
      token, isAuthenticated, payload := None, false, InitialPayload();
    }

    /** The callback, calling the store's own actions in the source's order. */
    method OnRehydrate(available: bool, decode: string -> Option<Payload>, nowCheck: int, nowLogin: int)
      modifies this
      ensures State() == Rehydrate(old(State()), available, decode, nowCheck, nowLogin)
      ensures SignedInHasToken(old(State())) ==> SignedInHasToken(State())
    {
      if !available {
        return;
      }
      SetHasHydrated(true);
      if !Truthy(token) {
        return;
      }
      var decoded := decode(token.value);
      if decoded.None? {
        Logout();
      } else if Expired(decoded.value, nowCheck) {
        Logout();
      } else {
        Login(token.value, decode, nowLogin);
      }
    }
  }
}

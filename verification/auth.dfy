/**
 * The session kept in the browser's `localStorage` (utils/auth.ts): the
 * token set written at login or refresh, its expiration instant, and the
 * cached user profile. The clock is the parameter `now` (milliseconds); the
 * JSON encoding of a profile is the pair of parameters `encode`/`decode`.
 */
module Auth {
  import opened Common
  import opened Numbers

  const AccessTokenKey: string := "access_token"
  const TokenTypeKey: string := "token_type"
  const ExpiresInKey: string := "expires_in"
  const RefreshTokenKey: string := "refresh_token"
  const ScopeKey: string := "scope"
  const ExpirationKey: string := "token_expiration"
  const UserProfileKey: string := "user_profile"

  /** The seven keys `logout` removes. */
  const SessionKeys: set<string> :=
    {AccessTokenKey, TokenTypeKey, ExpiresInKey, RefreshTokenKey, ScopeKey, ExpirationKey, UserProfileKey}

  datatype UserProfile = UserProfile(userId: string, email: string, firstName: string, lastName: string)

  /** The token set as `getTokens` returns it; `expiresIn` is `None` when `parseInt` gives NaN. */
  datatype AuthTokens = AuthTokens(accessToken: string, tokenType: string, expiresIn: Option<int>,
                                   refreshToken: string, scope: string)

  /**
   * The body of a token-endpoint reply. A missing string member is `None`;
   * `expiresIn` is `None` when the member is missing, and then calling
   * `toString` on it throws.
   */
  datatype Grant = Grant(accessToken: Option<string>, tokenType: Option<string>, expiresIn: Option<int>,
                         refreshToken: Option<string>, scope: Option<string>)

  /** `!!localStorage.getItem('access_token')`: a non-empty token is stored. */
  predicate HasAccessToken(store: Store) {
    Truthy(Get(store, AccessTokenKey))
  }

  /**
   * `isAuthenticated()`: a token and an expiration are stored, and `now` is
   * before the instant `parseInt` reads from the expiration (a comparison with
   * NaN is false).
   */
  function IsAuthenticated(store: Store, now: int): (r: bool)
    ensures !HasAccessToken(store) || !Truthy(Get(store, ExpirationKey)) ==> !r
    ensures HasAccessToken(store) && Truthy(Get(store, ExpirationKey)) ==>
              (r <==> ParseInt(store[ExpirationKey]).Some? && now < ParseInt(store[ExpirationKey]).value)
  {
    if !HasAccessToken(store) || !Truthy(Get(store, ExpirationKey)) then false
    else match ParseInt(store[ExpirationKey])
      case None => false
      case Some(t) => now < t
  }

  /** `getAccessToken()`. */
  function GetAccessToken(store: Store): (r: Option<string>)
    ensures r == Get(store, AccessTokenKey)
    ensures Truthy(r) <==> HasAccessToken(store)
  {
    Get(store, AccessTokenKey)
  }

  /**
   * The `Authorization` header `Bearer ${localStorage.getItem('access_token')}`: the stored token after
   * "Bearer ", or the text "null" when none is stored.
   */
  function Bearer(store: Store): (r: string)
    ensures AccessTokenKey in store ==> r == "Bearer " + store[AccessTokenKey]
    ensures AccessTokenKey !in store ==> r == "Bearer null"
  {
    "Bearer " + Get(store, AccessTokenKey).GetOr("null")
  }

  /** The five token keys all hold a non-empty value. */
  predicate HasTokenSet(store: Store) {
    Truthy(Get(store, AccessTokenKey)) && Truthy(Get(store, TokenTypeKey)) && Truthy(Get(store, ExpiresInKey))
    && Truthy(Get(store, RefreshTokenKey)) && Truthy(Get(store, ScopeKey))
  }

  /** `getTokens()`: all five values, with `expires_in` read by `parseInt`, or null if any is missing or empty. */
  function GetTokens(store: Store): (r: Option<AuthTokens>)
    ensures r.Some? <==> HasTokenSet(store)
    ensures r.Some? ==> r.value.accessToken == store[AccessTokenKey] && r.value.tokenType == store[TokenTypeKey]
                        && r.value.expiresIn == ParseInt(store[ExpiresInKey])
                        && r.value.refreshToken == store[RefreshTokenKey] && r.value.scope == store[ScopeKey]
  {
    if !HasTokenSet(store) then None
    else Some(AuthTokens(store[AccessTokenKey], store[TokenTypeKey], ParseInt(store[ExpiresInKey]),
                         store[RefreshTokenKey], store[ScopeKey]))
  }

  /** `getStoredUserProfile()`: the cached profile, or null when it is missing, empty or not valid JSON. */
  function GetStoredUserProfile(store: Store, decode: string -> Option<UserProfile>): (r: Option<UserProfile>)
    ensures !Truthy(Get(store, UserProfileKey)) ==> r.None?
    ensures Truthy(Get(store, UserProfileKey)) ==> r == decode(store[UserProfileKey])
  {
    if Truthy(Get(store, UserProfileKey)) then decode(store[UserProfileKey]) else None
  }

  /** The storage after `logout`: the seven session keys are gone, every other key is kept. */
  function LogoutStore(store: Store): (r: Store)
    ensures forall k :: k in r <==> k in store && k !in SessionKeys
    ensures forall k :: k in r ==> r[k] == store[k]
  {
    store - SessionKeys
  }

  /** What `localStorage.setItem` stores for a member that is missing from the reply. */
  function Stored(v: Option<string>): (r: string)
    ensures v.Some? ==> r == v.value
    ensures v.None? ==> r == "undefined"
  {
    v.GetOr("undefined")
  }

  /** `new Date().getTime() + (data.expires_in * 1000)`. */
  function ExpirationAfter(now: int, expiresIn: int): int {
    now + expiresIn * 1000
  }

  /** The storage after a successful refresh: the five token keys and the new expiration, in that order. */
  function StoreGrant(store: Store, g: Grant, now: int): (r: Store)
    requires g.expiresIn.Some?
    ensures forall k :: k in r <==> k in store || k in SessionKeys - {UserProfileKey}
    ensures forall k :: k in store && k !in SessionKeys ==> r[k] == store[k]
    ensures UserProfileKey in store ==> r[UserProfileKey] == store[UserProfileKey]
    ensures r[AccessTokenKey] == Stored(g.accessToken) && r[TokenTypeKey] == Stored(g.tokenType)
    ensures r[RefreshTokenKey] == Stored(g.refreshToken) && r[ScopeKey] == Stored(g.scope)
    ensures r[ExpiresInKey] == IntToString(g.expiresIn.value)
    ensures r[ExpirationKey] == IntToString(ExpirationAfter(now, g.expiresIn.value))
  {
    store[AccessTokenKey := Stored(g.accessToken)]
         [TokenTypeKey := Stored(g.tokenType)]
         [ExpiresInKey := IntToString(g.expiresIn.value)]
         [RefreshTokenKey := Stored(g.refreshToken)]
         [ScopeKey := Stored(g.scope)]
         [ExpirationKey := IntToString(ExpirationAfter(now, g.expiresIn.value))]
  }

  /** After `logout` the user is not authenticated, and there is neither a token set nor a cached profile. */
  lemma LogoutEndsSession(store: Store, now: int, decode: string -> Option<UserProfile>)
    ensures !IsAuthenticated(LogoutStore(store), now)
    ensures GetTokens(LogoutStore(store)).None?
    ensures GetStoredUserProfile(LogoutStore(store), decode).None?
    ensures GetAccessToken(LogoutStore(store)).None?
  {
    assert AccessTokenKey !in LogoutStore(store);
    assert UserProfileKey !in LogoutStore(store);
  }

  /**
   * After a refresh, `isAuthenticated` at instant `t` holds iff the stored
   * access token is non-empty and `t` is before `now + expires_in * 1000`:
   * the expiration written with `toString` is read back by `parseInt`.
   */
  lemma RefreshSetsExpiration(store: Store, g: Grant, now: int, t: int)
    requires g.expiresIn.Some?
    ensures IsAuthenticated(StoreGrant(store, g, now), t)
            <==> Stored(g.accessToken) != "" && t < ExpirationAfter(now, g.expiresIn.value)
  {
    var r := StoreGrant(store, g, now);
    ParseIntRoundTrip(ExpirationAfter(now, g.expiresIn.value));
    assert Get(r, ExpirationKey) == Some(IntToString(ExpirationAfter(now, g.expiresIn.value)));
  }

  /**
   * A refresh whose strings are all present and non-empty leaves a complete
   * token set that `getTokens` reads back unchanged, `expires_in` included.
   */
  lemma RefreshThenGetTokens(store: Store, g: Grant, now: int)
    requires g.expiresIn.Some?
    requires Stored(g.accessToken) != "" && Stored(g.tokenType) != ""
    requires Stored(g.refreshToken) != "" && Stored(g.scope) != ""
    ensures GetTokens(StoreGrant(store, g, now))
            == Some(AuthTokens(Stored(g.accessToken), Stored(g.tokenType), g.expiresIn,
                               Stored(g.refreshToken), Stored(g.scope)))
  {
    var r := StoreGrant(store, g, now);
    ParseIntRoundTrip(g.expiresIn.value);
    assert HasTokenSet(r);
    assert ParseInt(r[ExpiresInKey]) == g.expiresIn;
  }

  /** A profile cached with `JSON.stringify` is what `getStoredUserProfile` later returns. */
  lemma CachedProfileReadsBack(store: Store, p: UserProfile, encode: UserProfile -> string,
                               decode: string -> Option<UserProfile>)
    requires encode(p) != "" && decode(encode(p)) == Some(p)
    ensures GetStoredUserProfile(store[UserProfileKey := encode(p)], decode) == Some(p)
  {
  }

  /** The browser state the session functions act on: `localStorage` and `window.location.href`. */
  class Browser {
    var storage: Store
    var location: Option<string>

    constructor(storage: Store)
      ensures this.storage == storage && location.None?
    {
      this.storage := storage;
      location := None;
    }

    /** `logout()`: remove the seven session keys and go to the home page. */
    method Logout()
      modifies this
      ensures storage == LogoutStore(old(storage))
      ensures location == Some("/")
    {
      storage := storage - SessionKeys;
      location := Some("/");
    }

    /**
     * `fetchUserProfile()`: without a token, nothing is sent and null is
     * returned. A successful envelope with a profile caches it as JSON and
     * returns it; a non-OK status logs out; any other outcome returns null
     * and changes nothing. `sent` is the bearer token of the request, if one
     * was made.
     */
    method FetchUserProfile(reply: Reply<Option<Envelope<UserProfile>>>, encode: UserProfile -> string)
      returns (r: Option<UserProfile>, sent: Option<string>)
      modifies this
      ensures !HasAccessToken(old(storage)) ==> sent.None? && r.None? && storage == old(storage) && location == old(location)
      ensures HasAccessToken(old(storage)) ==> sent == Some(old(storage)[AccessTokenKey])
      ensures r.Some? <==> HasAccessToken(old(storage)) && reply.Reply? && reply.ok && reply.body.Some?
                           && reply.body.value.success && reply.body.value.response.Some?
      ensures r.Some? ==> r == reply.body.value.response
                          && storage == old(storage)[UserProfileKey := encode(r.value)] && location == old(location)
      ensures HasAccessToken(old(storage)) && reply.Reply? && !reply.ok ==> storage == LogoutStore(old(storage)) && location == Some("/")
      ensures r.None? && !(HasAccessToken(old(storage)) && reply.Reply? && !reply.ok) ==>
                storage == old(storage) && location == old(location)
    {
      var token := GetAccessToken(storage);
      if !Truthy(token) {
        return None, None;
      }
      sent := token;
      match reply
      case Threw =>
        r := None;
      case Reply(ok, body) =>
        if ok {
          if body.Some? && body.value.success && body.value.response.Some? {
            var profile := body.value.response.value;
            storage := storage[UserProfileKey := encode(profile)];
            r := Some(profile);
          } else {
            r := None;
          }
        } else {
          Logout();
          r := None;
        }
    }

    /**
     * `refreshToken()`: without a complete token set, false and nothing sent.
     * Otherwise the stored refresh token is sent; an OK reply whose body
     * parses stores the new token set and the expiration `now + expires_in *
     * 1000` and returns true. A non-OK status, a failed request, an
     * unparseable body, or a body without `expires_in` logs out and returns
     * false.
     */
    method RefreshToken(now: int, reply: Reply<Option<Grant>>) returns (r: bool, sent: Option<string>)
      modifies this
      ensures !HasTokenSet(old(storage)) ==> !r && sent.None? && storage == old(storage) && location == old(location)
      ensures HasTokenSet(old(storage)) ==> sent == Some(old(storage)[RefreshTokenKey])
      ensures r <==> HasTokenSet(old(storage)) && reply.Reply? && reply.ok && reply.body.Some?
                     && reply.body.value.expiresIn.Some?
      ensures r ==> storage == StoreGrant(old(storage), reply.body.value, now) && location == old(location)
      ensures HasTokenSet(old(storage)) && !r ==> storage == LogoutStore(old(storage)) && location == Some("/")
    {
      var tokens := GetTokens(storage);
      if tokens.None? || tokens.value.refreshToken == "" {
        return false, None;
      }
      sent := Some(tokens.value.refreshToken);
      if reply.Threw? || !reply.ok || reply.body.None? {
        Logout();
        return false, sent;
      }
      var g := reply.body.value;
      storage := storage[AccessTokenKey := Stored(g.accessToken)];
      storage := storage[TokenTypeKey := Stored(g.tokenType)];
      if g.expiresIn.None? {
        // `data.expires_in.toString()` throws; the handler logs out.
        Logout();
        assert storage == LogoutStore(old(storage));
        return false, sent;
      }
      storage := storage[ExpiresInKey := IntToString(g.expiresIn.value)];
      storage := storage[RefreshTokenKey := Stored(g.refreshToken)];
      storage := storage[ScopeKey := Stored(g.scope)];
      storage := storage[ExpirationKey := IntToString(ExpirationAfter(now, g.expiresIn.value))];
      r := true;
    }
  }
}

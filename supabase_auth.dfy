/**
 * The client-side authentication hook: the auth-token cookie it writes for a
 * session (Max-Age, Path and Secure as in sections 4.1.2.2, 4.1.2.4 and
 * 4.1.2.5 of RFC 6265), and the state it keeps about the session and the
 * user's profile. The auth service's answers are inputs.
 */
module SupabaseAuth {
  import opened Wrappers
  import opened Text
  import opened LifeDotsData

  /** One hour, the lifetime assumed when the session states no expiry. */
  const DEFAULT_LIFETIME: int := 3600
  /** The shortest lifetime the cookie is given. */
  const MIN_MAX_AGE: int := 60

  datatype SessionUser = SessionUser(id: Option<string>, email: Option<string>)

  /** The parts of an auth session the hook reads; `expiresAt` is in seconds since the epoch. */
  datatype Session = Session(accessToken: string, expiresAt: Option<int>, user: Option<SessionUser>)

  /** The cookie's lifetime in seconds: until the session expires, and at least a minute. */
  function MaxAge(expiresAt: Option<int>, now: int): (r: int)
    ensures r >= MIN_MAX_AGE
    ensures expiresAt.None? ==> r == DEFAULT_LIFETIME
    ensures expiresAt.Some? && expiresAt.value - now >= MIN_MAX_AGE ==> r == expiresAt.value - now
    ensures expiresAt.Some? && expiresAt.value - now < MIN_MAX_AGE ==> r == MIN_MAX_AGE
  {
    var expires := if expiresAt.Some? then expiresAt.value else now + DEFAULT_LIFETIME;
    if expires - now > MIN_MAX_AGE then expires - now else MIN_MAX_AGE
  }

  /** The cookie that removes the token. */
  function ClearedCookie(cookieName: string): string {
    cookieName + "=; Path=/; Max-Age=0; SameSite=Lax"
  }

  predicate HasToken(session: Option<Session>) {
    session.Some? && session.value.accessToken != []
  }

  /** The attributes of a token cookie, after `filter(Boolean)` dropped the empty `Secure` slot. */
  function TokenCookieParts(cookieName: string, encodedToken: string, maxAge: int, isSecure: bool): (parts: seq<string>)
    ensures forall k :: 0 <= k < |parts| ==> parts[k] != []
    ensures "Secure" in parts <==> isSecure
    ensures parts == [cookieName + "=" + encodedToken, "Path=/", "Max-Age=" + IntToString(maxAge), "SameSite=Lax"] +
                     (if isSecure then ["Secure"] else [])
  {
    var first := cookieName + "=" + encodedToken;
    var slots := [first, "Path=/", "Max-Age=" + IntToString(maxAge), "SameSite=Lax", if isSecure then "Secure" else ""];
    var parts := NonEmpty(slots);
    FilterKeepsFour(slots[0], slots[1], slots[2], slots[3], slots[4]);
    assert first[|cookieName|] == '=';
    assert first != "Secure" by {
      if |first| == 6 {
        assert "Secure"[|cookieName|] != '=';
      }
    }
    assert parts[1] != "Secure" && parts[2] != "Secure" && parts[3] != "Secure" by {
      assert parts[2][..8] == "Max-Age=";
    }
    parts
  }

  /** The filter keeps four non-empty slots and the last one only when it is not empty. */
  lemma FilterKeepsFour(a: string, b: string, c: string, d: string, e: string)
    requires a != [] && b != [] && c != [] && d != []
    ensures NonEmpty([a, b, c, d, e]) == [a, b, c, d] + (if e == [] then [] else [e])
  {
    NonEmptyCons(e, []);
    NonEmptyCons(d, [e]);
    NonEmptyCons(c, [d, e]);
    NonEmptyCons(b, [c, d, e]);
    NonEmptyCons(a, [b, c, d, e]);
  }

  /** Joining four or five parts. */
  lemma JoinFourOrFive(a: string, b: string, c: string, d: string, tail: seq<string>, sep: string)
    requires |tail| <= 1
    ensures Join([a, b, c, d] + tail, sep) == a + sep + b + sep + c + sep + d + (if tail == [] then [] else sep + tail[0])
  {
    var t := if tail == [] then [] else sep + tail[0];
    if tail != [] {
      JoinCons(d, tail, sep);
      assert Join(tail, sep) == tail[0];
    }
    assert Join([d] + tail, sep) == d + t;
    assert [c, d] + tail == [c] + ([d] + tail);
    JoinCons(c, [d] + tail, sep);
    assert [b, c, d] + tail == [b] + ([c, d] + tail);
    JoinCons(b, [c, d] + tail, sep);
    assert [a, b, c, d] + tail == [a] + ([b, c, d] + tail);
    JoinCons(a, [b, c, d] + tail, sep);
    Assoc4(a, b, c, d, t, sep);
  }

  lemma Assoc4(a: string, b: string, c: string, d: string, t: string, sep: string)
    ensures a + sep + (b + sep + (c + sep + (d + t))) == a + sep + b + sep + c + sep + d + t
  {
  }

  /** The token cookie's parts joined with `"; "`. */
  lemma TokenCookieJoined(cookieName: string, encodedToken: string, maxAge: int, isSecure: bool)
    ensures Join(TokenCookieParts(cookieName, encodedToken, maxAge, isSecure), "; ") ==
      cookieName + "=" + encodedToken + "; " + "Path=/" + "; " + "Max-Age=" + IntToString(maxAge) + "; " +
      "SameSite=Lax" + (if isSecure then "; " + "Secure" else "")
  {
    JoinFourOrFive(cookieName + "=" + encodedToken, "Path=/", "Max-Age=" + IntToString(maxAge), "SameSite=Lax",
                   if isSecure then ["Secure"] else [], "; ");
  }

  lemma NonEmptyCons(x: string, rest: seq<string>)
    ensures NonEmpty([x] + rest) == (if x == [] then [] else [x]) + NonEmpty(rest)
  {
    assert ([x] + rest)[1..] == rest;
  }

  lemma JoinCons(x: string, rest: seq<string>, sep: string)
    requires rest != []
    ensures Join([x] + rest, sep) == x + sep + Join(rest, sep)
  {
    assert ([x] + rest)[1..] == rest;
  }

  /**
   * `setAuthTokenCookie`'s cookie string. `now` is the current time in whole
   * seconds, `isSecure` whether the page was loaded over https, and `encode`
   * stands for `encodeURIComponent`.
   */
  function AuthCookie(cookieName: string, session: Option<Session>, now: int, isSecure: bool,
                      encode: string -> string): (r: string)
    ensures !HasToken(session) ==> r == ClearedCookie(cookieName)
    ensures HasToken(session) ==>
      r == cookieName + "=" + encode(session.value.accessToken) + "; " + "Path=/" + "; " +
           "Max-Age=" + IntToString(MaxAge(session.value.expiresAt, now)) + "; " + "SameSite=Lax" +
           (if isSecure then "; " + "Secure" else "")
  {
    if !HasToken(session) then ClearedCookie(cookieName)
    else
      var maxAge := MaxAge(session.value.expiresAt, now);
      var token := encode(session.value.accessToken);
      TokenCookieJoined(cookieName, token, maxAge, isSecure);
      Join(TokenCookieParts(cookieName, token, maxAge, isSecure), "; ")
  }

  /** A profile row as the query returns it. */
  datatype ProfileRow = ProfileRow(hasAccess: Option<bool>, profile: Option<Profile>)

  /** The profile query's outcome: an error reply, an exception, or the row (if any). */
  datatype QueryOutcome = QueryFailed | QueryThrew | QueryRow(row: Option<ProfileRow>)

  /** The hook's state. `cookie` is the last auth cookie written; `active` is cleared when the hook unmounts. */
  class AuthState {
    var session: Option<Session>
    var hasAccess: bool
    var profile: Option<Profile>
    var isLoading: bool
    var profileLoaded: bool
    var cookie: string
    var active: bool

    constructor(cookie: string)
      ensures session.None? && !hasAccess && profile.None? && isLoading && !profileLoaded
      ensures this.cookie == cookie && active
    {
      session := None;
      hasAccess := false;
      profile := None;
      isLoading := true;
      profileLoaded := false;
      this.cookie := cookie;
      active := true;
    }

    /** The signed-in user's id: none without a session. */
    function UserId(): (r: Option<string>)
      reads this
      ensures session.None? ==> r.None?
      ensures r.Some? ==> session.Some? && session.value.user.Some? && session.value.user.value.id == r
    {
      if session.Some? && session.value.user.Some? then session.value.user.value.id else None
    }

    /** The signed-in user's e-mail: none without a session. */
    function Email(): (r: Option<string>)
      reads this
      ensures session.None? ==> r.None?
      ensures r.Some? ==> session.Some? && session.value.user.Some? && session.value.user.value.email == r
    {
      if session.Some? && session.value.user.Some? then session.value.user.value.email else None
    }

    /** `clearAuthState`: signs out locally and removes the token cookie. */
    method ClearAuthState(cookieName: string)
      modifies this
      ensures session.None? && !hasAccess && profile.None? && !profileLoaded
      ensures cookie == ClearedCookie(cookieName)
      ensures isLoading == old(isLoading) && active == old(active)
      ensures UserId().None? && Email().None?
    {
      session := None;
      hasAccess := false;
      profile := None;
      profileLoaded := false;
      cookie := ClearedCookie(cookieName);
    }

    /**
     * `refreshProfile`. `hasClient` says whether the auth service is
     * configured, `fetchProfile` whether the stored profile is wanted, and
     * `activeAfter` whether the hook is still mounted when the answer arrives.
     */
    method RefreshProfile(hasClient: bool, fetchProfile: bool, outcome: QueryOutcome, activeAfter: bool)
      modifies this
      ensures session == old(session) && cookie == old(cookie) && isLoading == old(isLoading) && active == old(active)
      ensures !hasClient || !old(active) ==> !hasAccess && profile.None? && !profileLoaded
      ensures hasClient && old(active) && !activeAfter ==>
        !profileLoaded && hasAccess == old(hasAccess) && profile == old(profile)
      ensures hasClient && old(active) && activeAfter && !outcome.QueryRow? ==>
        !hasAccess && profile.None? && profileLoaded
      ensures hasClient && old(active) && activeAfter && outcome.QueryRow? ==>
        profileLoaded &&
        hasAccess == (outcome.row.Some? && outcome.row.value.hasAccess == Some(true)) &&
        profile == (if fetchProfile && outcome.row.Some? then outcome.row.value.profile else None)
    {
      if !hasClient || !active {
        hasAccess := false;
        profile := None;
        profileLoaded := false;
        return;
      }
      profileLoaded := false;
      if !activeAfter {
        return;
      }
      match outcome
      case QueryRow(row) =>
        hasAccess := row.Some? && row.value.hasAccess == Some(true);
        profile := if fetchProfile && row.Some? then row.value.profile else None;
        profileLoaded := true;
      case _ =>
        hasAccess := false;
        profile := None;
        profileLoaded := true;
    }

    /**
     * The auth-state listener: records the new session and its cookie, stops
     * loading, and either asks for the user's profile (the returned id) or
     * clears the state when there is no user.
     */
    method SessionChanged(next: Option<Session>, cookieName: string, now: int, isSecure: bool,
                          encode: string -> string) returns (refreshFor: Option<string>)
      modifies this
      ensures !isLoading && active == old(active)
      ensures refreshFor.Some? <==>
        next.Some? && next.value.user.Some? && next.value.user.value.id.Some? && next.value.user.value.id.value != []
      ensures refreshFor.Some? ==> (session == next && refreshFor == UserId() &&
                                    cookie == AuthCookie(cookieName, next, now, isSecure, encode) &&
                                    hasAccess == old(hasAccess) && profile == old(profile) &&
                                    profileLoaded == old(profileLoaded))
      ensures refreshFor.None? ==> (session.None? && !hasAccess && profile.None? && !profileLoaded &&
                                    cookie == ClearedCookie(cookieName))
    {
      session := next;
      cookie := AuthCookie(cookieName, next, now, isSecure, encode);
      isLoading := false;
      if next.Some? && next.value.user.Some? && next.value.user.value.id.Some? && next.value.user.value.id.value != "" {
        refreshFor := next.value.user.value.id;
      } else {
        ClearAuthState(cookieName);
        refreshFor := None;
      }
    }
  }
}

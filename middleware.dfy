/**
 * The request middleware: which paths need a signed-in user, which are the
 * sign-in pages, and the decision (pass, or redirect, and whether the auth
 * cookie is deleted) taken for a request given the looked-up user.
 */
module Middleware {
  import opened Wrappers
  import opened Text

  const PRIVATE_PREFIXES: seq<string> := ["/dashboard", "/settings", "/onboarding", "/admin"]
  const AUTH_PAGES: seq<string> := ["/login", "/signup"]

  /** The parts of the request URL and cookies the middleware reads. */
  datatype Request = Request(
    pathname: string, search: string,
    query: seq<(string, string)>,
    authToken: Option<string>)

  /** The user the auth service returns for the token. */
  datatype User = User(id: string, appRole: Option<string>, userRole: Option<string>)

  /** Where a redirect goes: a path, or the login page with a `next` parameter. */
  datatype Target = ToPath(path: string) | ToLogin(next: string)

  datatype Response = Pass | Redirect(target: Target)

  /** The response, and whether it deletes the auth cookie. */
  datatype Outcome = Outcome(response: Response, deletesAuthCookie: bool)

  /** `URLSearchParams.get`: the first value given for `name`. */
  function QueryGet(query: seq<(string, string)>, name: string): (r: Option<string>)
    ensures r.Some? <==> exists k :: 0 <= k < |query| && query[k].0 == name
  {
    if query == [] then None
    else if query[0].0 == name then Some(query[0].1)
    else QueryGet(query[1..], name)
  }

  predicate QueryHas(query: seq<(string, string)>, name: string) {
    QueryGet(query, name).Some?
  }

  /** A path under one of the private prefixes: always an absolute path. */
  predicate IsPrivatePath(pathname: string)
    ensures IsPrivatePath(pathname) ==> |pathname| >= 6 && pathname[0] == '/'
  {
    exists k :: 0 <= k < |PRIVATE_PREFIXES| && StartsWith(pathname, PRIVATE_PREFIXES[k])
  }

  /** One of the two sign-in pages, neither of which is private. */
  predicate IsAuthPage(pathname: string)
    ensures IsAuthPage(pathname) ==> !IsPrivatePath(pathname)
  {
    AuthPagesArePublic();
    pathname in AUTH_PAGES
  }

  /** The sign-in pages differ from every private prefix by their second or third character. */
  lemma AuthPagesArePublic()
    ensures !IsPrivatePath("/login") && !IsPrivatePath("/signup")
  {
    forall k | 0 <= k < |PRIVATE_PREFIXES|
      ensures !StartsWith("/login", PRIVATE_PREFIXES[k]) && !StartsWith("/signup", PRIVATE_PREFIXES[k])
    {
      var p := PRIVATE_PREFIXES[k];
      assert |p| >= 6 && (p[1] != 'l' && (p[1] != 's' || p[2] != 'i'));
    }
  }

  /** The program's rule for a `next` target: it starts with one slash, not two. */
  function IsSafeNextPathAsWritten(nextPath: Option<string>): (r: bool)
    ensures r ==> nextPath.Some? && |nextPath.value| >= 1 && nextPath.value[0] == '/'
    ensures r ==> |nextPath.value| == 1 || nextPath.value[1] != '/'
    ensures (nextPath.Some? && |nextPath.value| >= 1 && nextPath.value[0] == '/' &&
             (|nextPath.value| == 1 || nextPath.value[1] != '/')) ==> r
  {
    nextPath.Some? && nextPath.value != "" &&
    StartsWith(nextPath.value, "/") && !StartsWith(nextPath.value, "//")
  }

  /** The characters the WHATWG URL parser deletes from the input before reading it. */
  predicate IsTabOrNewline(c: char) {
    c == '\t' || c == '\n' || c == '\r'
  }

  /** The target as the URL parser reads it: with every tab, line feed and carriage return removed. */
  function ParserView(s: string): string {
    if s == [] then []
    else if IsTabOrNewline(s[0]) then ParserView(s[1..])
    else [s[0]] + ParserView(s[1..])
  }

  /** The parser's view holds no tab or line break, and a target without them is read as it is. */
  lemma {:induction false} ParserViewDeletes(s: string)
    ensures forall k :: 0 <= k < |ParserView(s)| ==> !IsTabOrNewline(ParserView(s)[k])
    ensures (forall k :: 0 <= k < |s| ==> !IsTabOrNewline(s[k])) ==> ParserView(s) == s
  {
    if s != [] {
      ParserViewDeletes(s[1..]);
      if !IsTabOrNewline(s[0]) {
        assert forall k :: 1 <= k < |s| ==> s[1..][k - 1] == s[k];
      }
    }
  }

  /** For a special scheme such as `https`, the URL parser treats `\\` as it treats `/`. */
  predicate IsSlashLike(c: char) {
    c == '/' || c == '\\'
  }

  /**
   * Resolved against the site's own URL, a target starting with a slash names
   * another host exactly when the parser reads two slashes, either way round,
   * at its start.
   */
  predicate OpensAuthority(target: string) {
    var v := ParserView(target);
    |v| >= 2 && IsSlashLike(v[0]) && IsSlashLike(v[1])
  }

  /** Two slashes, either way round, at the start name a host. */
  lemma LeadingSlashesOpenAuthority(s: string)
    requires |s| >= 2 && IsSlashLike(s[0]) && IsSlashLike(s[1])
    ensures OpensAuthority(s)
  {
    assert s[1..][0] == s[1] && s[1..][1..] == s[2..];
    assert ParserView(s) == [s[0]] + ([s[1]] + ParserView(s[2..]));
  }

  /** A tab or line break between the two slashes is deleted, so they still name a host. */
  lemma DeletedBreakOpensAuthority(s: string)
    requires |s| >= 3 && IsSlashLike(s[0]) && IsTabOrNewline(s[1]) && IsSlashLike(s[2])
    ensures OpensAuthority(s)
  {
    assert s[1..][0] == s[1] && s[1..][1..] == s[2..];
    assert s[2..][0] == s[2] && s[2..][1..] == s[3..];
    var rest := ParserView(s[2..]);
    assert rest == [s[2]] + ParserView(s[3..]);
    assert ParserView(s[1..]) == rest;
    assert ParserView(s) == [s[0]] + rest;
  }

  /**
   * The program's rule lets through targets that the URL parser sends to
   * another host: a slash and a backslash, or two slashes with a tab between
   * them, before any host name.
   */
  lemma AsWrittenAcceptsOffSite(host: string)
    ensures IsSafeNextPathAsWritten(Some("/\\" + host)) && OpensAuthority("/\\" + host)
    ensures IsSafeNextPathAsWritten(Some("/\t/" + host)) && OpensAuthority("/\t/" + host)
  {
    var a := "/\\" + host;
    assert a[0] == '/' && a[1] == '\\';
    LeadingSlashesOpenAuthority(a);
    var b := "/\t/" + host;
    assert b[0] == '/' && b[1] == '\t' && b[2] == '/';
    DeletedBreakOpensAuthority(b);
  }

  /** No backslash and no control character: nothing the URL parser would delete or read as a slash. */
  predicate PlainPathChars(s: string) {
    forall k :: 0 <= k < |s| ==> s[k] != '\\' && s[k] >= ' '
  }

  /**
   * A same-site relative path: the program's rule, and after the leading slash
   * no backslash and no control character.
   */
  function IsSafeNextPath(nextPath: Option<string>): (r: bool)
    ensures r <==> IsSafeNextPathAsWritten(nextPath) && PlainPathChars(nextPath.value)
  {
    IsSafeNextPathAsWritten(nextPath) && PlainPathChars(nextPath.value)
  }

  /** Every target the rule accepts stays on this site once the URL parser has read it. */
  lemma SafeNextStaysOnSite(nextPath: Option<string>)
    requires IsSafeNextPath(nextPath)
    ensures !OpensAuthority(nextPath.value)
  {
    var s := nextPath.value;
    assert forall k :: 0 <= k < |s| ==> !IsTabOrNewline(s[k]) by {
      forall k | 0 <= k < |s|
        ensures !IsTabOrNewline(s[k])
      {
        assert s[k] >= ' ';
      }
    }
    ParserViewDeletes(s);
  }

  /** The corrected rule refuses both counterexamples and still accepts ordinary paths. */
  lemma SafeNextExamples()
    ensures !IsSafeNextPath(None) && !IsSafeNextPath(Some(""))
    ensures !IsSafeNextPath(Some("//evil.example")) && !IsSafeNextPath(Some("https://evil.example"))
    ensures !IsSafeNextPath(Some("/\\evil.example")) && !IsSafeNextPath(Some("/\t/evil.example"))
    ensures IsSafeNextPath(Some("/dashboard?tab=1"))
  {
    assert "/\\evil.example"[1] == '\\';
    assert "/\t/evil.example"[1] == '\t';
  }

  /** The login redirect that brings the user back to the path and query they asked for. */
  function RedirectToLogin(req: Request): (r: Response)
    ensures r.Redirect? && r.target.ToLogin?
    ensures StartsWith(r.target.next, req.pathname) && r.target.next[|req.pathname|..] == req.search
  {
    Redirect(ToLogin(req.pathname + req.search))
  }

  /** Either role set to "admin" makes an administrator; no other role does. */
  predicate IsAdmin(user: User)
    ensures user.appRole == Some("admin") ==> IsAdmin(user)
    ensures user.userRole == Some("admin") ==> IsAdmin(user)
    ensures user.appRole != Some("admin") && user.userRole != Some("admin") ==> !IsAdmin(user)
  {
    user.appRole == Some("admin") || user.userRole == Some("admin")
  }

  /** Which rule the sign-in branch applies to a `next` target: the program's own, or the corrected one. */
  datatype NextRule = AsWritten | Corrected

  predicate Accepts(rule: NextRule, nextPath: Option<string>) {
    match rule
    case AsWritten => IsSafeNextPathAsWritten(nextPath)
    case Corrected => IsSafeNextPath(nextPath)
  }

  /**
   * The middleware's decision, with the sign-in branch checking `next` by
   * `rule`. `user` is the result of looking the token up (`None` when the
   * service is not configured, fails or rejects the token); it is consulted
   * only when the request carries a token.
   */
  function DecideUnder(rule: NextRule, req: Request, user: Option<User>): (r: Outcome)
    ensures r.deletesAuthCookie ==>
      req.authToken.Some? && req.authToken.value != [] && user.None? && req.pathname != "/signup"
    ensures r.response.Redirect? && r.response.target.ToLogin? ==>
      IsPrivatePath(req.pathname) && r.response == RedirectToLogin(req)
  {
    var token := req.authToken;
    var privatePath := IsPrivatePath(req.pathname);
    var authPage := IsAuthPage(req.pathname);
    if req.pathname == "/signup" then Outcome(Redirect(ToPath("/login")), false)
    else if !privatePath && !authPage then Outcome(Pass, false)
    else if !(token.Some? && token.value != "") then
      (if privatePath && QueryHas(req.query, "code") then Outcome(Pass, false)
       else if privatePath then Outcome(RedirectToLogin(req), false)
       else Outcome(Pass, false))
    else if user.None? then
      Outcome(if privatePath then RedirectToLogin(req) else Pass, true)
    else if StartsWith(req.pathname, "/admin") && !IsAdmin(user.value) then
      Outcome(Redirect(ToPath("/dashboard")), false)
    else if authPage then
      var nextPath := QueryGet(req.query, "next");
      Outcome(Redirect(ToPath(if Accepts(rule, nextPath) then nextPath.value else "/dashboard")), false)
    else Outcome(Pass, false)
  }

  /** The decision as the program takes it, with its own `next` rule. */
  function DecideAsWritten(req: Request, user: Option<User>): Outcome {
    DecideUnder(AsWritten, req, user)
  }

  /** The decision with the corrected `next` rule; the lemmas below are about this one. */
  function Decide(req: Request, user: Option<User>): Outcome {
    DecideUnder(Corrected, req, user)
  }

  predicate HasToken(req: Request) {
    req.authToken.Some? && req.authToken.value != []
  }

  /** The sign-up page always goes to the login page, whatever the cookies say. */
  lemma SignupRedirectsFirst(req: Request, user: Option<User>)
    requires req.pathname == "/signup"
    ensures Decide(req, user) == Outcome(Redirect(ToPath("/login")), false)
  {
  }

  /** Paths that are neither private nor sign-in pages pass untouched. */
  lemma PublicPathsPass(req: Request, user: Option<User>)
    requires !IsPrivatePath(req.pathname) && !IsAuthPage(req.pathname)
    ensures Decide(req, user) == Outcome(Pass, false)
  {
  }

  /** Without a token: private paths go to login unless they carry `code`; sign-in pages pass. */
  lemma NoTokenRules(req: Request, user: Option<User>)
    requires !HasToken(req) && req.pathname != "/signup"
    ensures IsPrivatePath(req.pathname) && QueryHas(req.query, "code") ==> Decide(req, user) == Outcome(Pass, false)
    ensures IsPrivatePath(req.pathname) && !QueryHas(req.query, "code") ==>
      Decide(req, user) == Outcome(Redirect(ToLogin(req.pathname + req.search)), false)
    ensures IsAuthPage(req.pathname) && !IsPrivatePath(req.pathname) ==> Decide(req, user) == Outcome(Pass, false)
  {
  }

  /** A token the lookup rejects is deleted; private paths then go to login and others pass. */
  lemma RejectedTokenRules(req: Request)
    requires HasToken(req) && req.pathname != "/signup"
    requires IsPrivatePath(req.pathname) || IsAuthPage(req.pathname)
    ensures Decide(req, None).deletesAuthCookie
    ensures IsPrivatePath(req.pathname) ==> Decide(req, None).response == RedirectToLogin(req)
    ensures !IsPrivatePath(req.pathname) ==> Decide(req, None).response == Pass
  {
  }

  /** A signed-in non-admin is sent from the admin area to the dashboard. */
  lemma AdminAreaNeedsAdmin(req: Request, user: User)
    requires HasToken(req) && StartsWith(req.pathname, "/admin") && !IsAdmin(user)
    ensures Decide(req, Some(user)) == Outcome(Redirect(ToPath("/dashboard")), false)
  {
    assert IsPrivatePath(req.pathname) by {
      assert StartsWith(req.pathname, PRIVATE_PREFIXES[3]);
    }
    assert req.pathname[1] == "/admin"[1];
    assert req.pathname != "/signup";
  }

  /** A signed-in user on a sign-in page goes to a `next` the rule accepts, else to the dashboard. */
  lemma SignedInLeavesAuthPages(rule: NextRule, req: Request, user: User)
    requires HasToken(req) && req.pathname == "/login"
    ensures var nextPath := QueryGet(req.query, "next");
      DecideUnder(rule, req, Some(user)) ==
        Outcome(Redirect(ToPath(if Accepts(rule, nextPath) then nextPath.value else "/dashboard")), false)
  {
    assert req.pathname[1] == 'l';
    assert !StartsWith(req.pathname, "/admin");
  }

  /**
   * The program's decision sends a signed-in user on the login page off the
   * site when `next` is a slash and a backslash before a host name; the
   * corrected decision sends the same request to the dashboard.
   */
  lemma AsWrittenRedirectsOffSite(req: Request, user: User, host: string)
    requires HasToken(req) && req.pathname == "/login"
    requires QueryGet(req.query, "next") == Some("/\\" + host)
    ensures DecideAsWritten(req, Some(user)) == Outcome(Redirect(ToPath("/\\" + host)), false)
    ensures OpensAuthority(DecideAsWritten(req, Some(user)).response.target.path)
    ensures Decide(req, Some(user)) == Outcome(Redirect(ToPath("/dashboard")), false)
  {
    AsWrittenAcceptsOffSite(host);
    var s := "/\\" + host;
    assert s[1] == '\\';
    assert !IsSafeNextPath(Some(s));
    SignedInLeavesAuthPages(AsWritten, req, user);
    SignedInLeavesAuthPages(Corrected, req, user);
  }

  /** The two decisions differ only on a `next` target holding a backslash or a control character. */
  lemma DecisionsAgreeOnPlainTargets(req: Request, user: Option<User>)
    requires var n := QueryGet(req.query, "next"); n.None? || PlainPathChars(n.value)
    ensures DecideAsWritten(req, user) == Decide(req, user)
  {
  }

  /**
   * Access control: a private path is served only to a looked-up user (an
   * admin, in the admin area) or, without a token, to a code-exchange callback.
   */
  lemma PrivatePathsAreGuarded(req: Request, user: Option<User>)
    requires IsPrivatePath(req.pathname) && Decide(req, user).response == Pass
    ensures (HasToken(req) && user.Some? && (StartsWith(req.pathname, "/admin") ==> IsAdmin(user.value))) ||
            (!HasToken(req) && QueryHas(req.query, "code"))
  {
  }

  /**
   * Every redirect of the corrected decision stays on this site: its
   * destination is a path the corrected rule accepts, which the URL parser
   * resolves to this host, and login redirects happen only for private paths.
   */
  lemma RedirectsStayOnSite(req: Request, user: Option<User>)
    requires Decide(req, user).response.Redirect?
    ensures Decide(req, user).response.target.ToPath? ==> IsSafeNextPath(Some(Decide(req, user).response.target.path))
    ensures Decide(req, user).response.target.ToPath? ==> !OpensAuthority(Decide(req, user).response.target.path)
    ensures Decide(req, user).response.target.ToLogin? ==> IsPrivatePath(req.pathname)
  {
    var r := Decide(req, user).response;
    if r.target.ToPath? {
      SafeNextStaysOnSite(Some(r.target.path));
    }
  }
}

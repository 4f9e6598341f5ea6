/**
 * The application's public base URL and the redirect URLs built on it. The
 * configured URL and, in a browser, the page origin are inputs.
 */
module AppUrl {
  import opened Wrappers
  import opened Text

  const LOCAL_APP_URL: string := "http://localhost:3000"

  /** Where the code runs: in a browser (with the page's origin) or on the server. */
  datatype Environment = Browser(origin: string) | Server

  /**
   * `getAppUrl`. In a browser a configured URL that does not point at
   * localhost wins, then the page origin, then the configured URL; on the
   * server the configured URL. The local development URL is the last resort.
   */
  function GetAppUrl(env: Environment, configuredAppUrl: Option<string>): (r: string)
    ensures r != []
    ensures var configured := Trim(configuredAppUrl.GetOr(""));
      r == configured || r == LOCAL_APP_URL || (env.Browser? && r == env.origin)
    ensures var configured := Trim(configuredAppUrl.GetOr(""));
      env.Browser? && configured != [] && !Contains(configured, "localhost") ==> r == configured
    ensures var configured := Trim(configuredAppUrl.GetOr(""));
      env.Browser? && (configured == [] || Contains(configured, "localhost")) && env.origin != [] ==> r == env.origin
    ensures var configured := Trim(configuredAppUrl.GetOr(""));
      env.Server? ==> r == (if configured != [] then configured else LOCAL_APP_URL)
  {
    var configured := Trim(configuredAppUrl.GetOr(""));
    match env
    case Browser(origin) =>
      if configured != "" && !Contains(configured, "localhost") then configured
      else if origin != "" then origin
      else if configured != "" then configured
      else LOCAL_APP_URL
    case Server =>
      if configured != "" then configured else LOCAL_APP_URL
  }

  /** `getRedirectUrl`: the base URL followed by the path, with exactly the slash the path lacks. */
  function GetRedirectUrl(env: Environment, configuredAppUrl: Option<string>, path: string): (r: string)
    ensures var base := GetAppUrl(env, configuredAppUrl);
      StartsWith(r, base) && r[|base|..] == RedirectSuffix(path)
  {
    JoinRedirect(GetAppUrl(env, configuredAppUrl), path)
  }

  /** The join itself, for any base URL. */
  function JoinRedirect(base: string, path: string): (r: string)
    ensures StartsWith(r, base) && r[|base|..] == RedirectSuffix(path)
  {
    if path == "" then base
    else if StartsWith(path, "/") then base + path
    else base + "/" + path
  }

  /** What follows the base URL in a redirect: nothing, the rooted path, or the path under a new slash. */
  function RedirectSuffix(path: string): (r: string)
    ensures path == [] <==> r == []
    ensures r != [] ==> r[0] == '/'
    ensures r == path || r == "/" + path
  {
    if path == "" then "" else if StartsWith(path, "/") then path else "/" + path
  }

  /** The three cases of the redirect, told apart by the path. */
  lemma RedirectCases(base: string, path: string)
    ensures var r := JoinRedirect(base, path);
      (path == [] ==> r == base) &&
      (path != [] && path[0] == '/' ==> r == base + path) &&
      (path != [] && path[0] != '/' ==> r == base + "/" + path)
  {
    var r := JoinRedirect(base, path);
    assert r == base + r[|base|..];
  }

  /** The redirect ends with the path itself, whichever slash was added. */
  lemma RedirectEndsWithPath(base: string, path: string)
    ensures var r := JoinRedirect(base, path);
      |path| <= |r| && r[|r| - |path|..] == path
  {
    var r := JoinRedirect(base, path);
    var suffix := RedirectSuffix(path);
    assert r == base + suffix;
    if suffix == path {
      assert r[|r| - |path|..] == suffix;
    } else {
      assert r[|r| - |path|..] == suffix[1..];
    }
  }

  /** A configured public address always wins in the browser, whatever the origin. */
  lemma PublicConfiguredUrlWins(origin1: string, origin2: string, configuredAppUrl: Option<string>)
    requires var configured := Trim(configuredAppUrl.GetOr(""));
      configured != [] && !Contains(configured, "localhost")
    ensures GetAppUrl(Browser(origin1), configuredAppUrl) == GetAppUrl(Browser(origin2), configuredAppUrl)
    ensures GetAppUrl(Browser(origin1), configuredAppUrl) == GetAppUrl(Server, configuredAppUrl)
  {
  }
}

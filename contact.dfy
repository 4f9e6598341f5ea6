/**
 * The contact-form endpoint: HTML escaping, the ordered validation of the
 * submitted form, the security-check request and verdict, and the e-mail it
 * sends. The JSON body, the security-check service and the mail service are
 * inputs (their answers), not calls.
 */
module Contact {
  import opened Wrappers
  import opened Text

  const MIN_MESSAGE_LENGTH: nat := 10
  const MAX_MESSAGE_LENGTH: nat := 4000
  const DEFAULT_RECIPIENT: string := "support@dotspan.life"
  const DEFAULT_APP_NAME: string := "DotSpan"
  const DEFAULT_VERIFY_CODE: string := "turnstile_verification_failed"

  // ------------------------------------------------------------ escaping

  /** `escapeHtml`: ampersands first, then the four other HTML-special characters. */
  function EscapeHtml(s: string): (r: string)
    ensures '<' !in r && '>' !in r && '"' !in r && '\'' !in r
  {
    var amp := ReplaceAllChar(s, '&', "&amp;");
    var lt := ReplaceAllChar(amp, '<', "&lt;");
    var gt := ReplaceAllChar(lt, '>', "&gt;");
    var quot := ReplaceAllChar(gt, '"', "&quot;");
    ReplaceKeepsAbsent(lt, '>', "&gt;", '<');
    ReplaceKeepsAbsent(gt, '"', "&quot;", '<');
    ReplaceKeepsAbsent(gt, '"', "&quot;", '>');
    ReplaceKeepsAbsent(quot, '\'', "&#039;", '<');
    ReplaceKeepsAbsent(quot, '\'', "&#039;", '>');
    ReplaceKeepsAbsent(quot, '\'', "&#039;", '"');
    ReplaceAllChar(quot, '\'', "&#039;")
  }

  /** The escape of one character. */
  function EscapeChar(c: char): (r: string)
    ensures |r| >= 1
    ensures Inert(r)
  {
    if c == '&' then "&amp;"
    else if c == '<' then "&lt;"
    else if c == '>' then "&gt;"
    else if c == '"' then "&quot;"
    else if c == '\'' then "&#039;"
    else [c]
  }

  /** Escaping character by character. */
  function EscapeEach(s: string): string {
    if s == [] then [] else EscapeChar(s[0]) + EscapeEach(s[1..])
  }

  predicate HtmlSpecial(c: char) {
    c == '<' || c == '>' || c == '"' || c == '\''
  }

  lemma {:induction false} ReplaceAbsent(s: string, c: char, rep: string)
    requires c !in s
    ensures ReplaceAllChar(s, c, rep) == s
  {
    if s != [] {
      assert s[1..] + [] == s[1..];
      ReplaceAbsent(s[1..], c, rep);
    }
  }

  lemma ReplaceOne(c: char, d: char, rep: string)
    ensures ReplaceAllChar([c], d, rep) == if c == d then rep else [c]
  {
    assert [c][1..] == [];
  }

  // The tails of the replacement chain leave a text without their characters alone.

  lemma KeepsTail4(e: string)
    requires '<' !in e && '>' !in e && '"' !in e && '\'' !in e
    ensures ReplaceAllChar(ReplaceAllChar(ReplaceAllChar(ReplaceAllChar(
      e, '<', "&lt;"), '>', "&gt;"), '"', "&quot;"), '\'', "&#039;") == e
  {
    ReplaceAbsent(e, '<', "&lt;");
    KeepsTail3(e);
  }

  lemma KeepsTail3(e: string)
    requires '>' !in e && '"' !in e && '\'' !in e
    ensures ReplaceAllChar(ReplaceAllChar(ReplaceAllChar(e, '>', "&gt;"), '"', "&quot;"), '\'', "&#039;") == e
  {
    ReplaceAbsent(e, '>', "&gt;");
    KeepsTail2(e);
  }

  lemma KeepsTail2(e: string)
    requires '"' !in e && '\'' !in e
    ensures ReplaceAllChar(ReplaceAllChar(e, '"', "&quot;"), '\'', "&#039;") == e
  {
    ReplaceAbsent(e, '"', "&quot;");
    ReplaceAbsent(e, '\'', "&#039;");
  }

  lemma EscapeAmp(c: char)
    requires c == '&'
    ensures EscapeHtml([c]) == "&amp;"
  {
    ReplaceOne(c, '&', "&amp;");
    KeepsTail4("&amp;");
  }

  lemma EscapeLt(c: char)
    requires c == '<'
    ensures EscapeHtml([c]) == "&lt;"
  {
    ReplaceOne(c, '&', "&amp;");
    ReplaceOne(c, '<', "&lt;");
    KeepsTail3("&lt;");
  }

  lemma EscapeGt(c: char)
    requires c == '>'
    ensures EscapeHtml([c]) == "&gt;"
  {
    ReplaceOne(c, '&', "&amp;");
    ReplaceOne(c, '<', "&lt;");
    ReplaceOne(c, '>', "&gt;");
    KeepsTail2("&gt;");
  }

  lemma EscapeQuot(c: char)
    requires c == '"'
    ensures EscapeHtml([c]) == "&quot;"
  {
    ReplaceOne(c, '&', "&amp;");
    ReplaceOne(c, '<', "&lt;");
    ReplaceOne(c, '>', "&gt;");
    ReplaceOne(c, '"', "&quot;");
    ReplaceAbsent("&quot;", '\'', "&#039;");
  }

  lemma EscapeApos(c: char)
    requires c == '\''
    ensures EscapeHtml([c]) == "&#039;"
  {
    ReplaceOne(c, '&', "&amp;");
    ReplaceOne(c, '<', "&lt;");
    ReplaceOne(c, '>', "&gt;");
    ReplaceOne(c, '"', "&quot;");
    ReplaceOne(c, '\'', "&#039;");
  }

  /** The replacement chain on a single character is that character's escape. */
  lemma EscapeOneChar(c: char)
    ensures EscapeHtml([c]) == EscapeChar(c)
  {
    if c == '&' {
      EscapeAmp(c);
    } else if c == '<' {
      EscapeLt(c);
    } else if c == '>' {
      EscapeGt(c);
    } else if c == '"' {
      EscapeQuot(c);
    } else if c == '\'' {
      EscapeApos(c);
    } else {
      ReplaceOne(c, '&', "&amp;");
      ReplaceOne(c, '<', "&lt;");
      ReplaceOne(c, '>', "&gt;");
      ReplaceOne(c, '"', "&quot;");
      ReplaceOne(c, '\'', "&#039;");
    }
  }

  /** The replacement chain distributes over concatenation. */
  lemma EscapeHtmlAppend(a: string, b: string)
    ensures EscapeHtml(a + b) == EscapeHtml(a) + EscapeHtml(b)
  {
    var a1, b1 := ReplaceAllChar(a, '&', "&amp;"), ReplaceAllChar(b, '&', "&amp;");
    ReplaceAllCharAppend(a, b, '&', "&amp;");
    var a2, b2 := ReplaceAllChar(a1, '<', "&lt;"), ReplaceAllChar(b1, '<', "&lt;");
    ReplaceAllCharAppend(a1, b1, '<', "&lt;");
    var a3, b3 := ReplaceAllChar(a2, '>', "&gt;"), ReplaceAllChar(b2, '>', "&gt;");
    ReplaceAllCharAppend(a2, b2, '>', "&gt;");
    var a4, b4 := ReplaceAllChar(a3, '"', "&quot;"), ReplaceAllChar(b3, '"', "&quot;");
    ReplaceAllCharAppend(a3, b3, '"', "&quot;");
    ReplaceAllCharAppend(a4, b4, '\'', "&#039;");
  }

  /** The five global replacements amount to escaping each character on its own. */
  lemma {:induction false} EscapeHtmlIsPerChar(s: string)
    ensures EscapeHtml(s) == EscapeEach(s)
  {
    if s == [] {
    } else {
      assert s == [s[0]] + s[1..];
      EscapeHtmlAppend([s[0]], s[1..]);
      EscapeOneChar(s[0]);
      EscapeHtmlIsPerChar(s[1..]);
    }
  }

  /** Reads the five entities back; any other character stands for itself. */
  function Unescape(s: string): string
    decreases |s|
  {
    if s == [] then []
    else if s[0] != '&' then [s[0]] + Unescape(s[1..])
    else if StartsWith(s, "&amp;") then "&" + Unescape(s[5..])
    else if StartsWith(s, "&lt;") then "<" + Unescape(s[4..])
    else if StartsWith(s, "&gt;") then ">" + Unescape(s[4..])
    else if StartsWith(s, "&quot;") then "\"" + Unescape(s[6..])
    else if StartsWith(s, "&#039;") then "'" + Unescape(s[6..])
    else [s[0]] + Unescape(s[1..])
  }

  lemma UnescapeAmp(rest: string)
    ensures Unescape("&amp;" + rest) == "&" + Unescape(rest)
  {
    var e := "&amp;" + rest;
    assert e[..5] == "&amp;" && e[5..] == rest;
  }

  lemma UnescapeLt(rest: string)
    ensures Unescape("&lt;" + rest) == "<" + Unescape(rest)
  {
    var e := "&lt;" + rest;
    assert e[..4] == "&lt;" && e[4..] == rest;
    assert e[1] == 'l';
  }

  lemma UnescapeGt(rest: string)
    ensures Unescape("&gt;" + rest) == ">" + Unescape(rest)
  {
    var e := "&gt;" + rest;
    assert e[..4] == "&gt;" && e[4..] == rest;
    assert e[1] == 'g';
  }

  lemma UnescapeQuot(rest: string)
    ensures Unescape("&quot;" + rest) == "\"" + Unescape(rest)
  {
    var e := "&quot;" + rest;
    assert e[..6] == "&quot;" && e[6..] == rest;
    assert e[1] == 'q';
  }

  lemma UnescapeApos(rest: string)
    ensures Unescape("&#039;" + rest) == "'" + Unescape(rest)
  {
    var e := "&#039;" + rest;
    assert e[..6] == "&#039;" && e[6..] == rest;
    assert e[1] == '#';
  }

  lemma UnescapeOneChar(c: char, rest: string)
    ensures Unescape(EscapeChar(c) + rest) == [c] + Unescape(rest)
  {
    if c == '&' {
      UnescapeAmp(rest);
    } else if c == '<' {
      UnescapeLt(rest);
    } else if c == '>' {
      UnescapeGt(rest);
    } else if c == '"' {
      UnescapeQuot(rest);
    } else if c == '\'' {
      UnescapeApos(rest);
    } else {
      var e := [c] + rest;
      assert e[0] == c && e[1..] == rest;
    }
  }

  /** Escaping loses nothing: reading the entities back gives the original text. */
  lemma {:induction false} EscapeRoundTrip(s: string)
    ensures Unescape(EscapeHtml(s)) == s
  {
    EscapeHtmlIsPerChar(s);
    EscapeEachRoundTrip(s);
  }

  lemma {:induction false} EscapeEachRoundTrip(s: string)
    ensures Unescape(EscapeEach(s)) == s
  {
    if s != [] {
      UnescapeOneChar(s[0], EscapeEach(s[1..]));
      EscapeEachRoundTrip(s[1..]);
    }
  }

  /** No `<`, `>`, `"` or `'`, and each `&` opens one of the five entities. */
  predicate Inert(r: string) {
    forall i :: 0 <= i < |r| ==> !HtmlSpecial(r[i]) && (r[i] == '&' ==> OpensEntity(r, i))
  }

  /** Escaped text is inert: it holds no markup and no stray ampersand. */
  lemma {:induction false} EscapedIsInert(s: string)
    ensures Inert(EscapeHtml(s))
  {
    EscapeHtmlIsPerChar(s);
    EscapeEachInert(s);
  }

  predicate OpensEntity(r: string, i: int) {
    OccursAt(r, "&amp;", i) || OccursAt(r, "&lt;", i) || OccursAt(r, "&gt;", i) ||
    OccursAt(r, "&quot;", i) || OccursAt(r, "&#039;", i)
  }

  lemma {:induction false} EscapeEachInert(s: string)
    ensures Inert(EscapeEach(s))
  {
    if s != [] {
      EscapeEachInert(s[1..]);
      InertAppend(EscapeChar(s[0]), EscapeEach(s[1..]));
    }
  }

  /** Inert texts put together stay inert. */
  lemma InertAppend(a: string, b: string)
    requires Inert(a) && Inert(b)
    ensures Inert(a + b)
  {
    var r := a + b;
    forall i | 0 <= i < |r|
      ensures !HtmlSpecial(r[i]) && (r[i] == '&' ==> OpensEntity(r, i))
    {
      if i < |a| {
        assert r[i] == a[i];
        if r[i] == '&' {
          OccursExtend(a, b, i);
        }
      } else {
        var j := i - |a|;
        assert r[i] == b[j];
        if r[i] == '&' {
          OccursShift(a, b, j);
        }
      }
    }
  }

  lemma OccursExtend(a: string, b: string, i: nat)
    ensures forall pat :: OccursAt(a, pat, i) ==> OccursAt(a + b, pat, i)
  {
    forall pat | OccursAt(a, pat, i)
      ensures OccursAt(a + b, pat, i)
    {
      assert (a + b)[i..i + |pat|] == a[i..i + |pat|];
    }
  }

  lemma OccursShift(e: string, rest: string, j: nat)
    requires j < |rest|
    ensures forall pat :: OccursAt(rest, pat, j) ==> OccursAt(e + rest, pat, |e| + j)
  {
    forall pat | OccursAt(rest, pat, j)
      ensures OccursAt(e + rest, pat, |e| + j)
    {
      assert (e + rest)[|e| + j..|e| + j + |pat|] == rest[j..j + |pat|];
    }
  }

  // ---------------------------------------------------------- validation

  predicate NoSpaceOrAt(t: string) {
    forall k :: 0 <= k < |t| ==> !IsWhitespace(t[k]) && t[k] != '@'
  }

  /** The language of `^[^\s@]+@[^\s@]+\.[^\s@]+$`. */
  predicate EmailPattern(s: string) {
    exists i, j :: 0 < i && i + 1 < j && j + 1 < |s| && s[i] == '@' && s[j] == '.' &&
      NoSpaceOrAt(s[..i]) && NoSpaceOrAt(s[i + 1..j]) && NoSpaceOrAt(s[j + 1..])
  }

  /** The address check, as a scan: one `@` with a non-empty local part before it, and a dot strictly inside the domain. */
  predicate IsValidEmail(s: string) {
    var local := TakeUntil(s, '@');
    var i := |local|;
    0 < i < |s| && NoSpaceOrAt(local) && NoSpaceOrAt(s[i + 1..]) &&
    |s| - i >= 4 && '.' in s[i + 2..|s| - 1]
  }

  /** The scan accepts exactly the addresses the pattern matches. */
  lemma EmailCheckMatchesPattern(s: string)
    ensures IsValidEmail(s) <==> EmailPattern(s)
  {
    if IsValidEmail(s) {
      PatternOfScan(s);
    }
    if EmailPattern(s) {
      var a, j :| 0 < a && a + 1 < j && j + 1 < |s| && s[a] == '@' && s[j] == '.' &&
        NoSpaceOrAt(s[..a]) && NoSpaceOrAt(s[a + 1..j]) && NoSpaceOrAt(s[j + 1..]);
      ScanOfPattern(s, a, j);
    }
  }

  /** An address the scan accepts matches the pattern, split at its `@` and a dot of the domain. */
  lemma PatternOfScan(s: string)
    requires IsValidEmail(s)
    ensures EmailPattern(s)
  {
    var local := TakeUntil(s, '@');
    var i := |local|;
    assert s[..i] == local;
    var d := s[i + 2..|s| - 1];
    var k :| 0 <= k < |d| && d[k] == '.';
    var j := i + 2 + k;
    assert s[j] == '.';
    var dom := s[i + 1..];
    assert s[i + 1..j] == dom[..j - i - 1];
    assert s[j + 1..] == dom[j - i..];
    assert 0 < i && i + 1 < j && j + 1 < |s| && s[i] == '@' && s[j] == '.' &&
      NoSpaceOrAt(s[..i]) && NoSpaceOrAt(s[i + 1..j]) && NoSpaceOrAt(s[j + 1..]);
  }

  /** A match of the pattern at `@` position `a` and dot position `j` passes the scan. */
  lemma ScanOfPattern(s: string, a: nat, j: nat)
    requires 0 < a && a + 1 < j && j + 1 < |s| && s[a] == '@' && s[j] == '.'
    requires NoSpaceOrAt(s[..a]) && NoSpaceOrAt(s[a + 1..j]) && NoSpaceOrAt(s[j + 1..])
    ensures IsValidEmail(s)
  {
    FirstAt(s, a);
    var dom := s[a + 1..];
    forall k | 0 <= k < |dom|
      ensures !IsWhitespace(dom[k]) && dom[k] != '@'
    {
      if a + 1 + k < j {
        assert dom[k] == s[a + 1..j][k];
      } else if a + 1 + k > j {
        assert dom[k] == s[j + 1..][a + k - j];
      }
    }
    assert s[a + 2..|s| - 1][j - a - 2] == '.';
  }

  /** When `s[a]` is the first `c`, the text before the first `c` is `s[..a]`. */
  lemma {:induction false} TakeUntilFirst(s: string, c: char, a: nat)
    requires a < |s| && s[a] == c && forall k :: 0 <= k < a ==> s[k] != c
    ensures TakeUntil(s, c) == s[..a]
  {
    if a > 0 {
      TakeUntilFirst(s[1..], c, a - 1);
      assert s[..a] == [s[0]] + s[1..][..a - 1];
    }
  }

  lemma FirstAt(s: string, a: nat)
    requires a < |s| && s[a] == '@' && NoSpaceOrAt(s[..a])
    ensures TakeUntil(s, '@') == s[..a]
  {
    forall k | 0 <= k < a
      ensures s[k] != '@'
    {
      assert s[k] == s[..a][k];
    }
    TakeUntilFirst(s, '@', a);
  }

  lemma ValidEmailExample()
    ensures IsValidEmail("ana@ex.io")
  {
    TakeUntilFirst("ana@ex.io", '@', 3);
    assert "ana@ex.io"[5..8][1] == '.';
  }

  lemma InvalidEmailExamples()
    ensures !IsValidEmail("ana@ex") && !IsValidEmail("@ex.io")
  {
    TakeUntilFirst("ana@ex", '@', 3);
    TakeUntilFirst("@ex.io", '@', 0);
  }

  predicate MessageLengthOk(message: string) {
    MIN_MESSAGE_LENGTH <= |message| <= MAX_MESSAGE_LENGTH
  }

  /** The JSON body; every field may be missing. */
  datatype ContactPayload = ContactPayload(
    email: Option<string>, message: Option<string>, page: Option<string>, turnstileToken: Option<string>)

  /** A submission that passed every check: the normalised fields and the service secret. */
  datatype Submission = Submission(email: string, message: string, page: string, token: string, secret: string)

  /** A JSON reply: its status and its `error` and `code` members. */
  datatype Reply = Reply(status: nat, error: Option<string>, code: Option<string>)

  const INVALID_BODY: Reply := Reply(400, Some("Invalid request body"), None)
  const CHECK_UNAVAILABLE: Reply := Reply(503, Some("Security check unavailable. Configure TURNSTILE_SECRET_KEY."), None)
  const CHECK_MISSING: Reply := Reply(400, Some("Please complete the security check"), None)
  const BAD_EMAIL: Reply := Reply(400, Some("Please enter a valid email address"), None)
  const TOO_SHORT: Reply := Reply(400, Some("Message must be at least 10 characters"), None)
  const TOO_LONG: Reply := Reply(400, Some("Message must be shorter than 4000 characters"), None)
  const OK_REPLY: Reply := Reply(200, None, None)

  /**
   * The checks in order, the first failure winning. `body` is `None` when the
   * request body does not parse as JSON or parses to a falsy value (`null`, `false`,
   * `0`, `""`); any other body is read as an object whose four fields are strings
   * or absent. `secretKey` is the configured secret.
   */
  function Validate(body: Option<ContactPayload>, secretKey: Option<string>): (r: Result<Submission, Reply>)
    ensures r.Ok? ==> IsValidEmail(r.value.email) && MessageLengthOk(r.value.message)
    ensures r.Ok? ==> r.value.token != [] && r.value.secret != []
    ensures r.Err? ==> r.error.status == 400 || r.error.status == 503
    ensures r.Ok? ==> body.Some? &&
                      r.value.email == ToLower(Trim(body.value.email.GetOr(""))) &&
                      r.value.message == Trim(body.value.message.GetOr("")) &&
                      r.value.page == Trim(body.value.page.GetOr("")) &&
                      r.value.token == Trim(body.value.turnstileToken.GetOr(""))
  {
    if body.None? then Err(INVALID_BODY)
    else
      var b := body.value;
      var email := ToLower(Trim(b.email.GetOr("")));
      var message := Trim(b.message.GetOr(""));
      var page := Trim(b.page.GetOr(""));
      var token := Trim(b.turnstileToken.GetOr(""));
      var secret := Trim(secretKey.GetOr(""));
      if secret == "" then Err(CHECK_UNAVAILABLE)
      else if token == "" then Err(CHECK_MISSING)
      else if !IsValidEmail(email) then Err(BAD_EMAIL)
      else if |message| < MIN_MESSAGE_LENGTH then Err(TOO_SHORT)
      else if |message| > MAX_MESSAGE_LENGTH then Err(TOO_LONG)
      else Ok(Submission(email, message, page, token, secret))
  }

  /** Each failure is reported only when every earlier check passed. */
  lemma ValidationOrder(body: ContactPayload, secretKey: Option<string>)
    ensures var secret := Trim(secretKey.GetOr(""));
      var token := Trim(body.turnstileToken.GetOr(""));
      var email := ToLower(Trim(body.email.GetOr("")));
      var message := Trim(body.message.GetOr(""));
      var r := Validate(Some(body), secretKey);
      (secret == [] ==> r == Err(CHECK_UNAVAILABLE)) &&
      (secret != [] && token == [] ==> r == Err(CHECK_MISSING)) &&
      (secret != [] && token != [] && !IsValidEmail(email) ==> r == Err(BAD_EMAIL)) &&
      (secret != [] && token != [] && IsValidEmail(email) && |message| < 10 ==> r == Err(TOO_SHORT)) &&
      (secret != [] && token != [] && IsValidEmail(email) && |message| > 4000 ==> r == Err(TOO_LONG)) &&
      (r.Ok? <==> secret != [] && token != [] && IsValidEmail(email) && MessageLengthOk(message))
  {
  }

  /** A missing body is rejected before the configuration is looked at. */
  lemma MissingBodyFirst(secretKey: Option<string>)
    ensures Validate(None, secretKey) == Err(INVALID_BODY)
  {
  }

  // ------------------------------------------------------- verification

  /** The client address: the first field of `x-forwarded-for`, trimmed, when not empty. */
  function RemoteIp(forwardedFor: Option<string>): (r: Option<string>)
    ensures r.Some? ==> r.value != [] && ',' !in r.value
    ensures r.Some? ==> !IsWhitespace(r.value[0]) && !IsWhitespace(r.value[|r.value| - 1])
    ensures r.None? <==> AllWhitespace(TakeUntil(forwardedFor.GetOr(""), ','))
  {
    var first := Trim(TakeUntil(forwardedFor.GetOr(""), ','));
    TrimIsInner(TakeUntil(forwardedFor.GetOr(""), ','));
    if first == "" then None else Some(first)
  }

  /** Trimming keeps a contiguous part of the text. */
  lemma TrimIsInner(s: string)
    ensures forall c :: c in Trim(s) ==> c in s
  {
    var t := TrimStart(s);
    assert forall c :: c in t ==> c in s;
    assert forall c :: c in TrimEnd(t) ==> c in t;
  }

  /** The form fields of the verification request, in order. */
  function VerifyParams(secret: string, token: string, remoteIp: Option<string>): (r: seq<(string, string)>)
    ensures |r| == if remoteIp.Some? then 3 else 2
    ensures r[0] == ("secret", secret) && r[1] == ("response", token)
    ensures remoteIp.Some? ==> r[2] == ("remoteip", remoteIp.value)
  {
    [("secret", secret), ("response", token)] + (if remoteIp.Some? then [("remoteip", remoteIp.value)] else [])
  }

  /** The verification service's JSON answer. */
  datatype VerifyJson = VerifyJson(success: Option<bool>, errorCodes: Option<seq<string>>)

  /** What came back from the verification request. */
  datatype VerifyOutcome = FetchFailed | NotOk | Answered(json: Option<VerifyJson>)

  /** The rejection for a failed verification, or `None` when it passed. */
  function VerifyRejection(outcome: VerifyOutcome): (r: Option<Reply>)
    ensures r.None? <==> outcome.Answered? && outcome.json.Some? && outcome.json.value.success == Some(true)
    ensures r.Some? ==> r.value.status == 403 && r.value.error == Some("Security verification failed")
    ensures outcome.Answered? && r.Some? ==> r.value.code.Some?
  {
    if !outcome.Answered? then Some(Reply(403, Some("Security verification failed"), None))
    else if outcome.json.Some? && outcome.json.value.success == Some(true) then None
    else
      var codes := if outcome.json.Some? then outcome.json.value.errorCodes else None;
      var code := if codes.Some? && |codes.value| > 0 then codes.value[0] else DEFAULT_VERIFY_CODE;
      Some(Reply(403, Some("Security verification failed"), Some(code)))
  }

  lemma VerifyCodeDefault(json: Option<VerifyJson>)
    requires json.None? || (json.value.success != Some(true) && (json.value.errorCodes.None? || json.value.errorCodes.value == []))
    ensures VerifyRejection(Answered(json)) == Some(Reply(403, Some("Security verification failed"), Some(DEFAULT_VERIFY_CODE)))
  {
  }

  // ------------------------------------------------------------- e-mail

  /**
   * The escaped message, each line break then turned into `<br/>`: every `<`
   * of the result opens a `<br/>`, so the sender cannot inject markup, and no
   * raw line break remains.
   */
  function SafeMessage(message: string): (r: string)
    ensures OnlyBreakTags(r)
    ensures '\n' !in r
  {
    var escaped := EscapeHtml(message);
    assert forall i :: 0 <= i < |escaped| ==> escaped[i] != '<';
    BreaksOnly(escaped);
    ReplaceAllChar(escaped, '\n', "<br/>")
  }

  /** Every `<` opens a `<br/>`. */
  predicate OnlyBreakTags(r: string) {
    forall i :: 0 <= i < |r| && r[i] == '<' ==> OccursAt(r, "<br/>", i)
  }

  lemma {:induction false} BreaksOnly(s: string)
    requires forall i :: 0 <= i < |s| ==> s[i] != '<'
    ensures OnlyBreakTags(ReplaceAllChar(s, '\n', "<br/>"))
  {
    if s != [] {
      var head := if s[0] == '\n' then "<br/>" else [s[0]];
      var rest := ReplaceAllChar(s[1..], '\n', "<br/>");
      BreaksOnly(s[1..]);
      var r := head + rest;
      assert ReplaceAllChar(s, '\n', "<br/>") == r;
      forall i | 0 <= i < |r| && r[i] == '<'
        ensures OccursAt(r, "<br/>", i)
      {
        if i < |head| {
          assert r[i] == head[i];
          assert head == "<br/>";
          OccursExtend(head, rest, 0);
          assert i == 0;
        } else {
          var j := i - |head|;
          assert rest[j] == '<';
          assert rest[j] == '<' ==> OccursAt(rest, "<br/>", j);
          OccursShift(head, rest, j);
        }
      }
    }
  }

  datatype OutgoingEmail = OutgoingEmail(to: string, replyTo: string, subject: string, text: string, html: string)

  function OrDefault(s: Option<string>, fallback: string): (r: string)
    ensures s.Some? && s.value != [] ==> r == s.value
    ensures s.None? || s.value == [] ==> r == fallback
  {
    if s.Some? && s.value != "" then s.value else fallback
  }

  const FROM_OPEN: string := "<p><strong>From:</strong> "
  const PAGE_OPEN: string := "</p><p><strong>Page:</strong> "
  const MESSAGE_OPEN: string := "</p><p><strong>Message:</strong></p><p>"
  const MESSAGE_CLOSE: string := "</p>"

  /** The HTML mail template: four paragraphs with three slots, for the sender, the page and the message. */
  function MailHtml(from: string, page: string, message: string): string {
    FROM_OPEN + from + PAGE_OPEN + page + MESSAGE_OPEN + message + MESSAGE_CLOSE
  }

  /** Position `i` of a mail built from slots of lengths `lf`, `lp`, `lm` lies in the fixed markup, in no slot. */
  predicate InTemplateMarkup(i: int, lf: int, lp: int, lm: int) {
    var f := |FROM_OPEN|;
    var p := f + lf + |PAGE_OPEN|;
    var m := p + lp + |MESSAGE_OPEN|;
    !(f <= i < f + lf) && !(p <= i < p + lp) && !(m <= i < m + lm)
  }

  /** The mail for a checked submission; the page defaults to "unknown". */
  function ComposeEmail(sub: Submission, supportEmail: Option<string>, appName: Option<string>): (m: OutgoingEmail)
    ensures m.replyTo == sub.email
    ensures m.to == OrDefault(supportEmail, DEFAULT_RECIPIENT)
    ensures m.subject == OrDefault(appName, DEFAULT_APP_NAME) + " contact message"
    ensures m.text == "From: " + sub.email + "\nPage: " + (if sub.page == "" then "unknown" else sub.page) + "\n\n" + sub.message
    ensures m.html == MailHtml(EscapeHtml(sub.email), EscapeHtml(if sub.page == "" then "unknown" else sub.page), SafeMessage(sub.message))
  {
    var page := OrDefault(Some(sub.page), "unknown");
    OutgoingEmail(
      OrDefault(supportEmail, DEFAULT_RECIPIENT),
      sub.email,
      OrDefault(appName, DEFAULT_APP_NAME) + " contact message",
      "From: " + sub.email + "\nPage: " + page + "\n\n" + sub.message,
      MailHtml(EscapeHtml(sub.email), EscapeHtml(page), SafeMessage(sub.message)))
  }

  /**
   * The sender controls none of the mail's markup: the sender and page slots are inert and read back
   * to what was submitted, and every `<` of the HTML body lies in the fixed template or opens a `<br/>`
   * of the message.
   */
  lemma MailMarkupIsFixed(sub: Submission, supportEmail: Option<string>, appName: Option<string>)
    ensures var page := if sub.page == "" then "unknown" else sub.page;
      Inert(EscapeHtml(sub.email)) && Unescape(EscapeHtml(sub.email)) == sub.email &&
      Inert(EscapeHtml(page)) && Unescape(EscapeHtml(page)) == page
    ensures var html := ComposeEmail(sub, supportEmail, appName).html;
      var lf := |EscapeHtml(sub.email)|;
      var lp := |EscapeHtml(if sub.page == "" then "unknown" else sub.page)|;
      var lm := |SafeMessage(sub.message)|;
      forall i :: 0 <= i < |html| && html[i] == '<' ==> InTemplateMarkup(i, lf, lp, lm) || OccursAt(html, "<br/>", i)
  {
    var page := if sub.page == "" then "unknown" else sub.page;
    var f, p, msg := EscapeHtml(sub.email), EscapeHtml(page), SafeMessage(sub.message);
    EscapedIsInert(sub.email);
    EscapedIsInert(page);
    EscapeRoundTrip(sub.email);
    EscapeRoundTrip(page);
    var html := MailHtml(f, p, msg);
    assert html == ComposeEmail(sub, supportEmail, appName).html;
    forall i | 0 <= i < |html| && html[i] == '<' && !InTemplateMarkup(i, |f|, |p|, |msg|)
      ensures OccursAt(html, "<br/>", i)
    {
      var a := |FROM_OPEN|;
      var b := a + |f| + |PAGE_OPEN|;
      var c := b + |p| + |MESSAGE_OPEN|;
      if a <= i < a + |f| || b <= i < b + |p| {
        // the sender and page slots are inert, so no `<` sits there
        assert false;
      } else {
        assert html == (FROM_OPEN + f + PAGE_OPEN + p + MESSAGE_OPEN) + msg + MESSAGE_CLOSE;
        SlotBreaksOnly(FROM_OPEN + f + PAGE_OPEN + p + MESSAGE_OPEN, msg, MESSAGE_CLOSE, i);
      }
    }
  }

  /** A `<` inside a break-only slot opens a `<br/>` of the whole text. */
  lemma SlotBreaksOnly(pre: string, x: string, post: string, i: int)
    requires OnlyBreakTags(x)
    requires |pre| <= i < |pre| + |x|
    requires (pre + x + post)[i] == '<'
    ensures OccursAt(pre + x + post, "<br/>", i)
  {
    var j := i - |pre|;
    assert (pre + x + post)[i] == x[j];
    OccursShift(pre, x, j);
    OccursExtend(pre + x, post, i);
  }

  /** Everything a request leads to: the reply, and the calls made on the way. */
  datatype Handling = Handling(reply: Reply, verifyRequest: Option<seq<(string, string)>>, mail: Option<OutgoingEmail>)

  /** The rest of the endpoint once the submission passed its checks. */
  function Respond(sub: Submission, forwardedFor: Option<string>, verify: VerifyOutcome, sendError: Option<string>,
                   supportEmail: Option<string>, appName: Option<string>): (h: Handling)
    ensures h.verifyRequest == Some(VerifyParams(sub.secret, sub.token, RemoteIp(forwardedFor)))
    ensures h.mail.Some? <==> VerifyRejection(verify).None?
    ensures VerifyRejection(verify).Some? ==> h.reply == VerifyRejection(verify).value
    ensures h.mail.Some? ==> h.mail.value == ComposeEmail(sub, supportEmail, appName)
    ensures h.reply == OK_REPLY <==> h.mail.Some? && sendError.None?
  {
    var request := VerifyParams(sub.secret, sub.token, RemoteIp(forwardedFor));
    match VerifyRejection(verify)
    case Some(reply) => Handling(reply, Some(request), None)
    case None =>
      var mail := ComposeEmail(sub, supportEmail, appName);
      if sendError.None? then Handling(OK_REPLY, Some(request), Some(mail))
      else Handling(Reply(500, sendError, None), Some(request), Some(mail))
  }

  /**
   * The whole endpoint. `verify` is the verification service's answer to the
   * request this handling makes, and `sendError` the mail service's failure
   * message (`None` when the mail was sent).
   */
  function Post(body: Option<ContactPayload>, secretKey: Option<string>, forwardedFor: Option<string>,
                verify: VerifyOutcome, sendError: Option<string>,
                supportEmail: Option<string>, appName: Option<string>): (h: Handling)
    ensures h.mail.Some? ==> Validate(body, secretKey).Ok? && VerifyRejection(verify).None?
    ensures h.verifyRequest.Some? <==> Validate(body, secretKey).Ok?
    ensures Validate(body, secretKey).Err? ==> h.reply == Validate(body, secretKey).error
    ensures h.reply == OK_REPLY <==> h.mail.Some? && sendError.None?
  {
    match Validate(body, secretKey)
    case Err(reply) => Handling(reply, None, None)
    case Ok(sub) => Respond(sub, forwardedFor, verify, sendError, supportEmail, appName)
  }
}

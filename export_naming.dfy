/**
 * Naming and printing an export: the slugged filename with its local date stamp
 * and random fallback token, and the print page.
 */
module ExportNaming {
  import opened Wrappers
  import opened Text

  newtype byte = x: int | 0 <= x < 256

  // ------------------------------------------------------------------ slug

  /** A character the slug keeps: `[a-z0-9]`. */
  predicate IsSlugChar(c: char) {
    'a' <= c <= 'z' || '0' <= c <= '9'
  }

  /** The `[a-z0-9]` characters of `s`, in order. */
  function SlugChars(s: string): string {
    if s == [] then []
    else if IsSlugChar(s[0]) then [s[0]] + SlugChars(s[1..])
    else SlugChars(s[1..])
  }

  /**
   * `replace(/[^a-z0-9]+/g, "-")`: each maximal run outside `[a-z0-9]` becomes
   * one hyphen. A character of such a run is dropped while the run goes on and
   * written as the hyphen where the run ends.
   */
  function CollapseRuns(s: string): (r: string)
    ensures forall k :: 0 <= k < |r| ==> IsSlugChar(r[k]) || r[k] == '-'
    ensures forall i, j {:trigger r[i], r[j]} :: 0 <= i && j == i + 1 && j < |r| ==> r[i] != '-' || r[j] != '-'
    ensures r == [] <==> s == []
    ensures r != [] ==> (r[0] == '-' <==> !IsSlugChar(s[0]))
    ensures SlugChars(r) == SlugChars(s)
  {
    if s == [] then []
    else if IsSlugChar(s[0]) then
      var rest := CollapseRuns(s[1..]);
      assert SlugChars([s[0]] + rest) == [s[0]] + SlugChars(rest);
      [s[0]] + rest
    else if |s| > 1 && !IsSlugChar(s[1]) then
      CollapseRuns(s[1..])
    else
      var rest := CollapseRuns(s[1..]);
      assert SlugChars("-" + rest) == SlugChars(rest);
      "-" + rest
  }

  /** `replace(/^-|-$/g, "")`: drops one hyphen at each end. */
  function StripEdgeHyphens(s: string): (r: string)
    ensures SlugChars(r) == SlugChars(s)
  {
    var a := if s != [] && s[0] == '-' then s[1..] else s;
    if a != [] && a[|a| - 1] == '-' then
      assert a == a[..|a| - 1] + "-";
      SlugCharsAppend(a[..|a| - 1], "-");
      a[..|a| - 1]
    else a
  }

  lemma {:induction false} SlugCharsAppend(a: string, b: string)
    ensures SlugChars(a + b) == SlugChars(a) + SlugChars(b)
  {
    if a != [] {
      assert (a + b)[0] == a[0];
      assert (a + b)[1..] == a[1..] + b;
      SlugCharsAppend(a[1..], b);
    } else {
      assert a + b == b;
    }
  }

  /** A well-formed slug: `[a-z0-9]` and single inner hyphens only. */
  predicate IsSlug(s: string) {
    (forall k :: 0 <= k < |s| ==> IsSlugChar(s[k]) || s[k] == '-') &&
    (forall k :: 0 <= k < |s| - 1 ==> s[k] != '-' || s[k + 1] != '-') &&
    (s == [] || (s[0] != '-' && s[|s| - 1] != '-'))
  }

  /** `name?.trim().toLowerCase().replace(/[^a-z0-9]+/g, "-").replace(/^-|-$/g, "")`. */
  function SafeName(name: string): (r: string)
    ensures IsSlug(r)
    ensures SlugChars(r) == SlugChars(ToLower(Trim(name)))
    ensures r == [] <==> SlugChars(ToLower(Trim(name))) == []
  {
    var collapsed := CollapseRuns(ToLower(Trim(name)));
    var r := StripEdgeHyphens(collapsed);
    StrippedIsSlug(collapsed);
    SlugNonEmpty(r);
    r
  }

  /** Stripping the edge hyphens of a string of slug characters and single hyphens leaves a slug. */
  lemma StrippedIsSlug(s: string)
    requires forall k :: 0 <= k < |s| ==> IsSlugChar(s[k]) || s[k] == '-'
    requires forall k :: 0 <= k < |s| - 1 ==> s[k] != '-' || s[k + 1] != '-'
    ensures IsSlug(StripEdgeHyphens(s))
  {
    var a := if s != [] && s[0] == '-' then s[1..] else s;
    assert a == [] || a[0] != '-';
    var r := StripEdgeHyphens(s);
    var n := if a != [] && a[|a| - 1] == '-' then |a| - 1 else |a|;
    assert r == a[..n];
    assert r == [] || r[|r| - 1] != '-' by {
      if n == |a| - 1 && n > 0 {
        assert r[n - 1] == a[n - 1];
      }
    }
    assert r == [] || r[0] != '-';
    forall k | 0 <= k < |r|
      ensures IsSlugChar(r[k]) || r[k] == '-'
    {
      assert r[k] == a[k];
    }
    forall k | 0 <= k < |r| - 1
      ensures r[k] != '-' || r[k + 1] != '-'
    {
      assert r[k] == a[k] && r[k + 1] == a[k + 1];
    }
  }

  /** A slug with a character has a `[a-z0-9]` character. */
  lemma SlugNonEmpty(s: string)
    requires IsSlug(s)
    ensures s == [] <==> SlugChars(s) == []
  {
    if s != [] {
      assert IsSlugChar(s[0]);
    }
  }

  /** A string of `[a-z0-9]` characters is kept as it is. */
  lemma {:induction false} CollapseKeepsSlugChars(s: string)
    requires forall k :: 0 <= k < |s| ==> IsSlugChar(s[k])
    ensures CollapseRuns(s) == s
  {
    if s != [] {
      CollapseKeepsSlugChars(s[1..]);
    }
  }

  /** A non-empty run of characters outside `[a-z0-9]` becomes one hyphen. */
  lemma {:induction false} CollapseRunIsHyphen(s: string)
    requires s != [] && forall k :: 0 <= k < |s| ==> !IsSlugChar(s[k])
    ensures CollapseRuns(s) == "-"
  {
    if |s| > 1 {
      CollapseRunIsHyphen(s[1..]);
    }
  }

  /**
   * Collapsing splits at any join with a `[a-z0-9]` character on one side of
   * it; with the two lemmas above this determines the collapse of every text
   * from its alternating runs.
   */
  lemma {:induction false} CollapseAppend(a: string, b: string)
    requires a == [] || b == [] || IsSlugChar(a[|a| - 1]) || IsSlugChar(b[0])
    ensures CollapseRuns(a + b) == CollapseRuns(a) + CollapseRuns(b)
  {
    var ab := a + b;
    if a == [] {
      assert ab == b;
    } else if b == [] {
      assert ab == a;
    } else if |a| == 1 {
      assert ab[0] == a[0] && ab[1..] == b;
    } else {
      assert ab[0] == a[0] && ab[1] == a[1] && ab[1..] == a[1..] + b;
      assert a[1..][|a| - 2] == a[|a| - 1];
      CollapseAppend(a[1..], b);
    }
  }

  /** A run of other characters followed by a word collapses to a hyphen and the word. */
  lemma CollapseRunThenWord(sep: string, w: string)
    requires sep != [] && forall k :: 0 <= k < |sep| ==> !IsSlugChar(sep[k])
    requires w != [] && forall k :: 0 <= k < |w| ==> IsSlugChar(w[k])
    ensures CollapseRuns(sep + w) == "-" + w
  {
    CollapseRunIsHyphen(sep);
    CollapseKeepsSlugChars(w);
    CollapseAppend(sep, w);
  }

  /** A word is kept in front of whatever follows it. */
  lemma CollapseWordThen(w: string, t: string)
    requires w != [] && forall k :: 0 <= k < |w| ==> IsSlugChar(w[k])
    ensures CollapseRuns(w + t) == w + CollapseRuns(t)
  {
    CollapseKeepsSlugChars(w);
    assert IsSlugChar(w[|w| - 1]);
    CollapseAppend(w, t);
  }

  /** Two words joined by any run of other characters become the words joined by one hyphen. */
  lemma TwoWordsCollapse(w1: string, sep: string, w2: string)
    requires w1 != [] && forall k :: 0 <= k < |w1| ==> IsSlugChar(w1[k])
    requires sep != [] && forall k :: 0 <= k < |sep| ==> !IsSlugChar(sep[k])
    requires w2 != [] && forall k :: 0 <= k < |w2| ==> IsSlugChar(w2[k])
    ensures CollapseRuns(w1 + sep + w2) == w1 + "-" + w2
  {
    var tail := sep + w2;
    CollapseRunThenWord(sep, w2);
    CollapseWordThen(w1, tail);
    assert w1 + sep + w2 == w1 + tail;
    assert w1 + ("-" + w2) == w1 + "-" + w2;
  }

  /** Text with no `[a-z0-9]` character: a separator run, or nothing. */
  predicate NoSlugChar(s: string) {
    forall k :: 0 <= k < |s| ==> !IsSlugChar(s[k])
  }

  /** A run that may be empty collapses to nothing or to one hyphen. */
  lemma CollapseOptionalRun(s: string)
    requires NoSlugChar(s)
    ensures CollapseRuns(s) == if s == [] then [] else "-"
  {
    if s != [] {
      CollapseRunIsHyphen(s);
    }
  }

  /** Runs before and after a text that starts and ends with a slug character collapse on their own. */
  lemma CollapseAround(lead: string, m: string, tail: string)
    requires m != [] && IsSlugChar(m[0]) && IsSlugChar(m[|m| - 1])
    ensures CollapseRuns(lead + m + tail) == CollapseRuns(lead) + CollapseRuns(m) + CollapseRuns(tail)
  {
    CollapseAppend(lead, m);
    var lm := lead + m;
    assert lm[|lm| - 1] == m[|m| - 1];
    CollapseAppend(lm, tail);
  }

  /** Stripping removes an optional hyphen on either side of a text that has none at its ends. */
  lemma StripAround(h1: string, c: string, h2: string)
    requires h1 == [] || h1 == "-"
    requires h2 == [] || h2 == "-"
    requires c != [] && c[0] != '-' && c[|c| - 1] != '-'
    ensures StripEdgeHyphens(h1 + c + h2) == c
  {
    var s := h1 + c + h2;
    var a := if s != [] && s[0] == '-' then s[1..] else s;
    assert a == c + h2 by {
      if h1 == "-" {
        assert s[0] == '-' && s[1..] == c + h2;
      } else {
        assert s == c + h2 && s[0] == c[0];
      }
    }
    if h2 == "-" {
      assert a[|a| - 1] == '-' && a[..|a| - 1] == c;
    } else {
      assert a == c;
    }
  }

  /**
   * Two words with any runs of other characters before, between and after
   * them: collapsing and stripping leaves the words joined by one hyphen.
   */
  lemma SlugOfTwoWords(t: string, lead: string, w1: string, sep: string, w2: string, tail: string)
    requires t == lead + w1 + sep + w2 + tail
    requires NoSlugChar(lead) && NoSlugChar(tail)
    requires w1 != [] && forall k :: 0 <= k < |w1| ==> IsSlugChar(w1[k])
    requires sep != [] && NoSlugChar(sep)
    requires w2 != [] && forall k :: 0 <= k < |w2| ==> IsSlugChar(w2[k])
    ensures StripEdgeHyphens(CollapseRuns(t)) == w1 + "-" + w2
  {
    var m := w1 + sep + w2;
    assert m[0] == w1[0] && m[|m| - 1] == w2[|w2| - 1];
    assert t == lead + m + tail;
    CollapseAround(lead, m, tail);
    TwoWordsCollapse(w1, sep, w2);
    CollapseOptionalRun(lead);
    CollapseOptionalRun(tail);
    var c := w1 + "-" + w2;
    assert c[0] == w1[0] && c[|c| - 1] == w2[|w2| - 1];
    StripAround(CollapseRuns(lead), c, CollapseRuns(tail));
  }

  /**
   * A name that reads, trimmed and lower-cased, as two words with any runs of
   * other characters before, between and after them is slugged to the two
   * words joined by one hyphen.
   */
  lemma SafeNameOfTwoWords(name: string, lead: string, w1: string, sep: string, w2: string, tail: string)
    requires ToLower(Trim(name)) == lead + w1 + sep + w2 + tail
    requires NoSlugChar(lead) && NoSlugChar(tail)
    requires w1 != [] && forall k :: 0 <= k < |w1| ==> IsSlugChar(w1[k])
    requires sep != [] && NoSlugChar(sep)
    requires w2 != [] && forall k :: 0 <= k < |w2| ==> IsSlugChar(w2[k])
    ensures SafeName(name) == w1 + "-" + w2
  {
    SlugOfTwoWords(ToLower(Trim(name)), lead, w1, sep, w2, tail);
  }

  /** "Jane Doe!!" has no white space at its ends and lower-cases letter by letter. */
  lemma JaneDoeLowered(name: string)
    requires name == "Jane Doe!!"
    ensures ToLower(Trim(name)) == "" + "jane" + " " + "doe" + "!!"
  {
    assert !IsWhitespace(name[0]) && !IsWhitespace(name[|name| - 1]);
    assert TrimStart(name) == name;
    assert TrimEnd(name) == name;
  }

  /** The slug of "Jane Doe!!" is "jane-doe". */
  lemma SafeNameExample(name: string)
    requires name == "Jane Doe!!"
    ensures SafeName(name) == "jane-doe"
  {
    JaneDoeLowered(name);
    SafeNameOfTwoWords(name, "", "jane", " ", "doe", "!!");
  }

  // ----------------------------------------------------------------- token

  const TOKEN_CHARS: string := "abcdefghijklmnopqrstuvwxyz0123456789"

  /** `getRandomToken`: each random byte picks `TOKEN_CHARS[byte mod 36]`. */
  function RandomToken(bytes: seq<byte>): (r: string)
    ensures |r| == |bytes|
    ensures forall k :: 0 <= k < |r| ==> IsSlugChar(r[k]) && r[k] == TOKEN_CHARS[bytes[k] as int % 36]
  {
    TokenCharsAreSlugChars();
    seq(|bytes|, k requires 0 <= k < |bytes| => TOKEN_CHARS[bytes[k] as int % 36])
  }

  lemma TokenCharsAreSlugChars()
    ensures |TOKEN_CHARS| == 36
    ensures forall k :: 0 <= k < 36 ==> IsSlugChar(TOKEN_CHARS[k])
  {}

  /** The byte source of `getRandomToken`: the platform's random bytes when it has
      them, otherwise `floor(random() * 256)` for each of `length` draws from [0, 1). */
  method RandomBytes(length: nat, platform: Option<seq<byte>>, draws: seq<real>) returns (bytes: seq<byte>)
    requires platform.Some? ==> |platform.value| == length
    requires platform.None? ==> |draws| == length && forall k :: 0 <= k < |draws| ==> 0.0 <= draws[k] < 1.0
    ensures |bytes| == length
    ensures platform.Some? ==> bytes == platform.value
    ensures platform.None? ==> forall k :: 0 <= k < length ==> bytes[k] as int == (draws[k] * 256.0).Floor
  {
    if platform.Some? {
      return platform.value;
    }
    var buffer := new byte[length];
    var i := 0;
    while i < length
      invariant 0 <= i <= length
      invariant forall k :: 0 <= k < i ==> buffer[k] as int == (draws[k] * 256.0).Floor
    {
      var b := (draws[i] * 256.0).Floor;
      assert 0 <= b < 256;
      buffer[i] := b as byte;
      i := i + 1;
    }
    bytes := buffer[..];
  }

  // ------------------------------------------------------------ date stamp

  /** A local calendar date: full year, month 1-12, day of month 1-31. */
  datatype LocalDate = LocalDate(year: int, month: nat, day: nat)

  predicate ValidDate(d: LocalDate) {
    1 <= d.month <= 12 && 1 <= d.day <= 31
  }

  /** `String(n).padStart(2, "0")`. */
  function TwoDigits(n: nat): string {
    PadStartZero(NatToString(n), 2)
  }

  /** A number below 100 becomes exactly two digits that read back as it. */
  lemma TwoDigitsRoundTrip(n: nat)
    requires n < 100
    ensures var r := TwoDigits(n);
      |r| == 2 && AllDigits(r) && DigitsValue(r) == n
  {
    var s := NatToString(n);
    NatToStringRoundTrip(n);
    if n < 10 {
      assert s == [DigitChar(n)];
      assert TwoDigits(n) == "0" + s;
      assert ("0" + s)[..1] == "0";
    } else {
      assert s == NatToString(n / 10) + [DigitChar(n % 10)];
      assert NatToString(n / 10) == [DigitChar(n / 10)];
    }
  }

  /** A year of four digits is written with four digits. */
  lemma FourDigitYear(y: nat)
    requires 1000 <= y <= 9999
    ensures |NatToString(y)| == 4
  {
    assert NatToString(y / 1000) == [DigitChar(y / 1000)];
    assert |NatToString(y / 100)| == 2;
    assert |NatToString(y / 10)| == 3;
  }

  /** `buildLocalDateStamp`: `<year>-<MM>-<DD>`. */
  function BuildLocalDateStamp(d: LocalDate): string
    requires ValidDate(d)
  {
    IntToString(d.year) + "-" + TwoDigits(d.month) + "-" + TwoDigits(d.day)
  }

  predicate AllDigits(s: string) {
    forall k :: 0 <= k < |s| ==> IsDigit(s[k])
  }

  /** For a four-digit year the stamp is the ISO 8601 calendar date `YYYY-MM-DD`,
      and each field reads back as the date's own. */
  lemma DateStampIsIso8601(d: LocalDate)
    requires ValidDate(d) && 1000 <= d.year <= 9999
    ensures var r := BuildLocalDateStamp(d);
      |r| == 10 && r[4] == '-' && r[7] == '-' &&
      AllDigits(r[..4]) && AllDigits(r[5..7]) && AllDigits(r[8..]) &&
      DigitsValue(r[..4]) == d.year && DigitsValue(r[5..7]) == d.month && DigitsValue(r[8..]) == d.day &&
      (forall k :: 0 <= k < |r| ==> IsDigit(r[k]) || r[k] == '-')
  {
    var y := NatToString(d.year);
    FourDigitYear(d.year);
    NatToStringRoundTrip(d.year);
    TwoDigitsRoundTrip(d.month);
    TwoDigitsRoundTrip(d.day);
    assert IntToString(d.year) == y;
    var m, dd := TwoDigits(d.month), TwoDigits(d.day);
    assert BuildLocalDateStamp(d) == y + "-" + m + "-" + dd;
    StampFields(y, m, dd);
  }

  /** Where the three fields of `y-m-d` sit. */
  lemma StampFields(y: string, m: string, d: string)
    requires |y| == 4 && |m| == 2 && |d| == 2
    requires AllDigits(y) && AllDigits(m) && AllDigits(d)
    ensures var r := y + "-" + m + "-" + d;
      |r| == 10 && r[..4] == y && r[4] == '-' && r[5..7] == m && r[7] == '-' && r[8..] == d &&
      (forall k :: 0 <= k < |r| ==> IsDigit(r[k]) || r[k] == '-')
  {}

  // -------------------------------------------------------------- filename

  datatype ExportExtension = Png | Pdf | Jpg

  function ExtensionName(e: ExportExtension): (r: string)
    ensures forall k :: 0 <= k < |r| ==> IsSlugChar(r[k])
  {
    match e
    case Png => "png"
    case Pdf => "pdf"
    case Jpg => "jpg"
  }

  /** The name part of the filename: the slugged name, or `export-` and a random token. */
  function FilenameSuffix(name: Option<string>, randomBytes: seq<byte>): (r: string)
    requires |randomBytes| == 6
    ensures IsSlug(r) && r != []
    ensures name.Some? && SafeName(name.value) != [] ==> r == SafeName(name.value)
    ensures name.None? || SafeName(name.value) == [] ==> r == "export-" + RandomToken(randomBytes)
  {
    if name.Some? && SafeName(name.value) != [] then SafeName(name.value)
    else
      ExportTokenIsSlug(randomBytes);
      "export-" + RandomToken(randomBytes)
  }

  /** `export-` followed by a token is a slug. */
  lemma ExportTokenIsSlug(randomBytes: seq<byte>)
    requires |randomBytes| == 6
    ensures IsSlug("export-" + RandomToken(randomBytes))
  {
    var t := RandomToken(randomBytes);
    var r := "export-" + t;
    forall k | 0 <= k < |r|
      ensures IsSlugChar(r[k]) || r[k] == '-'
    {
      if k >= 7 {
        assert r[k] == t[k - 7];
      }
    }
    forall k | 0 <= k < |r| - 1
      ensures r[k] != '-' || r[k + 1] != '-'
    {
      if k >= 6 {
        assert r[k + 1] == t[k - 6];
      }
    }
    assert r[|r| - 1] == t[5];
  }

  /** `buildExportFilename`: `dotspan-<suffix>-<stamp>.<extension>`. */
  function BuildExportFilename(name: Option<string>, extension: ExportExtension,
                               randomBytes: seq<byte>, today: LocalDate): string
    requires |randomBytes| == 6 && ValidDate(today)
  {
    "dotspan-" + FilenameSuffix(name, randomBytes) + "-" + BuildLocalDateStamp(today) + "." + ExtensionName(extension)
  }

  /** The three parts a export filename is made of. */
  datatype FilenameParts = FilenameParts(suffix: string, stamp: string, extension: string)

  /** Reads a filename of the form `dotspan-<suffix>-<10-char stamp>.<extension>`,
      taking the extension after the last dot. */
  function ParseExportFilename(f: string): Option<FilenameParts> {
    match LastIndexOf(f, '.')
    case None => None
    case Some(dot) =>
      if dot >= 20 && f[..8] == "dotspan-" && f[dot - 11] == '-' then
        Some(FilenameParts(f[8..dot - 11], f[dot - 10..dot], f[dot + 1..]))
      else None
  }

  /** `s.lastIndexOf(c)`. */
  function LastIndexOf(s: string, c: char): (r: Option<nat>)
    ensures r.Some? ==> r.value < |s| && s[r.value] == c && c !in s[r.value + 1..]
    ensures r.None? ==> c !in s
  {
    if s == [] then None
    else if s[|s| - 1] == c then Some(|s| - 1)
    else
      var r := LastIndexOf(s[..|s| - 1], c);
      assert s == s[..|s| - 1] + [s[|s| - 1]];
      r
  }

  /** A built filename reads back into its suffix, stamp and extension. */
  lemma FilenameRoundTrip(name: Option<string>, extension: ExportExtension,
                          randomBytes: seq<byte>, today: LocalDate)
    requires |randomBytes| == 6 && ValidDate(today) && 1000 <= today.year <= 9999
    ensures ParseExportFilename(BuildExportFilename(name, extension, randomBytes, today)) ==
      Some(FilenameParts(FilenameSuffix(name, randomBytes), BuildLocalDateStamp(today), ExtensionName(extension)))
  {
    var suffix, stamp, ext := FilenameSuffix(name, randomBytes), BuildLocalDateStamp(today), ExtensionName(extension);
    NoDotInSuffix(name, randomBytes);
    NoDotInStamp(today);
    assert forall k :: 0 <= k < |ext| ==> ext[k] != '.';
    ParseAssembled(suffix, stamp, ext);
    assert BuildExportFilename(name, extension, randomBytes, today) == "dotspan-" + suffix + "-" + stamp + "." + ext;
  }

  lemma NoDotInSuffix(name: Option<string>, randomBytes: seq<byte>)
    requires |randomBytes| == 6
    ensures '.' !in FilenameSuffix(name, randomBytes)
  {
    var suffix := FilenameSuffix(name, randomBytes);
    assert forall k :: 0 <= k < |suffix| ==> suffix[k] != '.';
  }

  lemma NoDotInStamp(today: LocalDate)
    requires ValidDate(today) && 1000 <= today.year <= 9999
    ensures var stamp := BuildLocalDateStamp(today);
      |stamp| == 10 && stamp[0] != '-' && '.' !in stamp
  {
    DateStampIsIso8601(today);
    var stamp := BuildLocalDateStamp(today);
    assert stamp[0] != '-' by {
      assert stamp[0] == stamp[..4][0];
      assert IsDigit(stamp[..4][0]);
    }
    forall k | 0 <= k < |stamp|
      ensures stamp[k] != '.'
    {
      assert IsDigit(stamp[k]) || stamp[k] == '-';
    }
  }

  /** Parsing inverts assembly whenever no part holds a dot. */
  lemma ParseAssembled(suffix: string, stamp: string, ext: string)
    requires suffix != [] && |stamp| == 10 && stamp[0] != '-'
    requires '.' !in suffix && '.' !in stamp && '.' !in ext
    ensures ParseExportFilename("dotspan-" + suffix + "-" + stamp + "." + ext) ==
      Some(FilenameParts(suffix, stamp, ext))
  {
    var f := "dotspan-" + suffix + "-" + stamp + "." + ext;
    var dot := 8 + |suffix| + 1 + 10;
    assert f[dot] == '.';
    assert f[dot + 1..] == ext;
    LastIndexOfUnique(f, '.', dot);
    assert f[..8] == "dotspan-";
    assert f[8..dot - 11] == suffix;
    assert f[dot - 11] == '-';
    assert f[dot - 10..dot] == stamp;
  }

  lemma {:induction false} LastIndexOfUnique(s: string, c: char, i: nat)
    requires i < |s| && s[i] == c && c !in s[i + 1..]
    ensures LastIndexOf(s, c) == Some(i)
  {
    if i < |s| - 1 {
      assert s[|s| - 1] in s[i + 1..];
      var t := s[..|s| - 1];
      assert t[i + 1..] == s[i + 1..|s| - 1];
      LastIndexOfUnique(t, c, i);
    }
  }

  // ----------------------------------------------------------------- print

  datatype PrintSize = Letter | A4

  /** The CSS page size a print size asks for. */
  function PageSize(p: PrintSize): (r: string)
    ensures r == "letter" <==> p == Letter
    ensures r == "letter" || r == "A4"
  {
    if p == Letter then "letter" else "A4"
  }

  const PRINT_MARGIN: string := "16mm"

  /** The print page: its title, `@page` size and margin, and the image with the
      title as its alternative text. */
  datatype PrintDocument = PrintDocument(title: string, pageSize: string, margin: string,
                                         imageUrl: string, imageAlt: string)

  /** A browsing context `window.open` may return. */
  class PrintWindow {
    var document: Option<PrintDocument>

    constructor()
      ensures document.None?
    {
      document := None;
    }
  }

  /** `writePrintDocument`. */
  method WritePrintDocument(w: PrintWindow, imageUrl: string, title: string, printSize: PrintSize)
    modifies w
    ensures w.document == Some(PrintDocument(title, PageSize(printSize), PRINT_MARGIN, imageUrl, title))
  {
    var pageSize := if printSize == Letter then "letter" else "A4";
    w.document := Some(PrintDocument(title, pageSize, PRINT_MARGIN, imageUrl, title));
  }

  /** `openPrintWindow`, with the window `window.open` returned (or null) as input. */
  method OpenPrintWindow(win: PrintWindow?, imageUrl: string, title: string, printSize: PrintSize)
    modifies win
    ensures win != null ==>
      win.document == Some(PrintDocument(title, PageSize(printSize), PRINT_MARGIN, imageUrl, title))
  {
    if win == null {
      return;
    }
    WritePrintDocument(win, imageUrl, title, printSize);
  }
}

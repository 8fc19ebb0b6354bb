// The part of URL parsing that the Google Maps link check relies on: the
// scheme, the host name and the query of an absolute URL, and whether the
// query names a parameter. A text that is not an absolute URL does not
// parse. Host names of the special schemes and parameter names are
// percent-decoded, as the URL standard of the WHATWG prescribes.
module MapsUrl {
  import opened Wrappers
  import opened Strings
  import Patterns
  import JsValue

  /** The parts of a parsed URL the link check reads. */
  datatype Url = Url(scheme: string, hostname: string, query: string)

  const MapsHost := "maps.google.com"

  /** The schemes whose URLs always have a host. */
  const NetworkSchemes: set<string> := {"http", "https", "ws", "wss", "ftp"}

  /** A C0 control character or a space, stripped from both ends. */
  predicate IsC0OrSpace(c: char)
  {
    c <= ' '
  }

  /** Tab and newline characters, removed wherever they are. */
  predicate IsTabOrNewline(c: char)
  {
    c == '\t' || c == '\n' || c == '\r'
  }

  function DropLeading(s: string): (r: string)
    ensures |r| <= |s| && s[|s| - |r|..] == r
    ensures r == [] || !IsC0OrSpace(r[0])
  {
    if s != [] && IsC0OrSpace(s[0]) then DropLeading(s[1..]) else s
  }

  function DropTrailingSpace(s: string): (r: string)
    ensures |r| <= |s| && s[..|r|] == r
    ensures r == [] || !IsC0OrSpace(r[|r| - 1])
  {
    if s != [] && IsC0OrSpace(s[|s| - 1]) then DropTrailingSpace(s[..|s| - 1]) else s
  }

  function DropTabs(s: string): (r: string)
    ensures |r| <= |s|
    ensures forall i :: 0 <= i < |r| ==> !IsTabOrNewline(r[i])
    ensures (forall i :: 0 <= i < |s| ==> !IsTabOrNewline(s[i])) ==> r == s
    ensures forall c :: c in r ==> c in s
  {
    if s == [] then []
    else if IsTabOrNewline(s[0]) then DropTabs(s[1..])
    else [s[0]] + DropTabs(s[1..])
  }

  /** The input the parser works on. */
  function Cleaned(s: string): string
  {
    DropTabs(DropTrailingSpace(DropLeading(s)))
  }

  predicate IsSchemeChar(c: char)
  {
    Patterns.IsAsciiAlnum(c) || c == '+' || c == '-' || c == '.'
  }

  /** The number of scheme characters `s` starts with. */
  function SchemeRun(s: string): (k: nat)
    ensures k <= |s| && (forall i :: 0 <= i < k ==> IsSchemeChar(s[i]))
    ensures k < |s| ==> !IsSchemeChar(s[k])
  {
    if s != [] && IsSchemeChar(s[0]) then
      var k := 1 + SchemeRun(s[1..]);
      assert forall i :: 1 <= i < k ==> s[i] == s[1..][i - 1];
      k
    else 0
  }

  /** The position of the `:` that ends the scheme, if `s` starts with a
      letter followed by scheme characters and a `:`. */
  function SchemeEnd(s: string): (r: Option<nat>)
    ensures r.Some? ==> 0 < r.value < |s| && s[r.value] == ':' && Patterns.IsAsciiLetter(s[0])
  {
    if s == [] || !Patterns.IsAsciiLetter(s[0]) then None
    else
      var k := SchemeRun(s);
      if k < |s| && s[k] == ':' then Some(k) else None
  }

  predicate IsSlash(c: char, special: bool)
  {
    c == '/' || (special && c == '\\')
  }

  /** The number of slashes `s` starts with. */
  function SlashRun(s: string, special: bool): (k: nat)
    ensures k <= |s|
  {
    if s != [] && IsSlash(s[0], special) then 1 + SlashRun(s[1..], special) else 0
  }

  /** Where the authority ends: at the first slash, `?` or `#`. */
  function AuthorityEnd(s: string, special: bool): (k: nat)
    ensures k <= |s|
    ensures forall i :: 0 <= i < k ==> !IsSlash(s[i], special) && s[i] != '?' && s[i] != '#'
    ensures k < |s| ==> IsSlash(s[k], special) || s[k] == '?' || s[k] == '#'
  {
    if s == [] || IsSlash(s[0], special) || s[0] == '?' || s[0] == '#' then 0
    else
      var k := 1 + AuthorityEnd(s[1..], special);
      assert forall i :: 1 <= i < k ==> s[i] == s[1..][i - 1];
      k
  }

  /** The text after the last `c`, or all of `s` without one. */
  function AfterLast(s: string, c: char): (r: string)
    ensures |r| <= |s| && c !in r
    ensures c !in s ==> r == s
  {
    if s == [] then []
    else if s[|s| - 1] == c then []
    else AfterLast(s[..|s| - 1], c) + [s[|s| - 1]]
  }

  /** The text before the first `c`, or all of `s` without one. */
  function BeforeFirst(s: string, c: char): (r: string)
    ensures |r| <= |s| && s[..|r|] == r && c !in r
    ensures |r| < |s| ==> s[|r|] == c
  {
    if s == [] || s[0] == c then []
    else [s[0]] + BeforeFirst(s[1..], c)
  }

  /** The port after the host, `""` when there is none. */
  function PortOf(hostPort: string): string
  {
    var h := BeforeFirst(hostPort, ':');
    if |h| == |hostPort| then "" else hostPort[|h| + 1..]
  }

  /** A port the parser accepts: empty, or digits up to 65535. */
  predicate ValidPort(p: string)
  {
    (forall i :: 0 <= i < |p| ==> IsDigit(p[i])) && DigitsValue(p) <= 65535
  }

  /** The text after the first `?` up to the first `#`. */
  function QueryOf(tail: string): string
  {
    var beforeHash := BeforeFirst(tail, '#');
    var beforeQuery := BeforeFirst(beforeHash, '?');
    if |beforeQuery| == |beforeHash| then "" else beforeHash[|beforeQuery| + 1..]
  }

  /** A forbidden host code point: NUL, tab, line feed, carriage return,
      space, `#`, `/`, `:`, `<`, `>`, `?`, `@`, `[`, `\\`, `]`, `^` and `|`. */
  predicate ForbiddenHostChar(c: char)
  {
    c == 0 as char || c == '\t' || c == '\n' || c == '\r' || c == ' ' || c == '#' || c == '/' || c == ':'
    || c == '<' || c == '>' || c == '?' || c == '@' || c == '[' || c == '\\' || c == ']' || c == '^' || c == '|'
  }

  /** A forbidden domain code point: a forbidden host code point, a C0
      control, `%` or DEL. */
  predicate ForbiddenDomainChar(c: char)
  {
    ForbiddenHostChar(c) || c < ' ' || c == '%' || c == 127 as char
  }

  /** Percent-decoding: each `%` followed by two hexadecimal digits becomes
      the character numbered by that byte; everything else is kept. A byte
      of 0x80 or more becomes the character of that number instead of a
      part of a UTF-8 sequence; the result is still ASCII exactly when the
      UTF-8 reading is, and equals an ASCII text exactly when that reading
      does. */
  function PercentDecode(s: string): (r: string)
    ensures |r| <= |s|
    ensures s != [] ==> r != []
    decreases |s|
  {
    if s == [] then []
    else if EscapeAt(s) then [EscapedChar(s)] + PercentDecode(s[3..])
    else [s[0]] + PercentDecode(s[1..])
  }

  /** `s` starts with `%` and two hexadecimal digits. */
  predicate EscapeAt(s: string)
  {
    |s| >= 3 && s[0] == '%' && JsValue.IsHexDigit(s[1]) && JsValue.IsHexDigit(s[2])
  }

  /** The character numbered by the escape `s` starts with. */
  function EscapedChar(s: string): char
    requires EscapeAt(s)
  {
    (JsValue.HexValue(s[1]) * 16 + JsValue.HexValue(s[2])) as char
  }

  /** The host of a URL with a special scheme: percent-decoded and
      lower-cased; `None` where the decoded text holds a forbidden domain
      code point. */
  function DomainOf(host: string): (r: Option<string>)
    ensures r.Some? <==> DomainText(PercentDecode(host))
    ensures r.Some? ==> r.value == Lower(PercentDecode(host))
  {
    var d := PercentDecode(host);
    if DomainText(d) then Some(Lower(d)) else None
  }

  /** A text without forbidden domain code points. */
  predicate DomainText(d: string)
  {
    forall i :: 0 <= i < |d| ==> !ForbiddenDomainChar(d[i])
  }

  /** The host of a URL with another scheme, kept as written; `None` where
      it holds a forbidden host code point. */
  function OpaqueHostOf(host: string): (r: Option<string>)
    ensures r.Some? <==> forall i :: 0 <= i < |host| ==> !ForbiddenHostChar(host[i])
    ensures r.Some? ==> r.value == host
  {
    if exists i | 0 <= i < |host| :: ForbiddenHostChar(host[i]) then None else Some(host)
  }

  /** The authority `a` of a URL: user information dropped, port checked,
      and the host read as a domain for the special schemes and as an
      opaque host for the others. */
  function HostOf(a: string, special: bool): Option<string>
  {
    var hostPort := AfterLast(a, '@');
    var host := BeforeFirst(hostPort, ':');
    if !ValidPort(PortOf(hostPort)) then None
    else if special then DomainOf(host)
    else OpaqueHostOf(host)
  }

  /** An absolute URL's scheme, host name and query; `None` where
      `new URL(s)` throws. */
  function ParseUrl(input: string): (r: Option<Url>)
    ensures r.Some? && r.value.scheme in NetworkSchemes ==> r.value.hostname != ""
  {
    var s := Cleaned(input);
    match SchemeEnd(s)
    case None => None
    case Some(k) =>
      var scheme := Lower(s[..k]);
      var rest := s[k + 1..];
      if scheme in NetworkSchemes then NetworkUrl(scheme, rest) else OtherUrl(scheme, rest)
  }

  /** The URL after the scheme of a network scheme: any slashes, then the
      authority, whose host may not be empty. */
  function NetworkUrl(scheme: string, rest: string): Option<Url>
  {
    var after := rest[SlashRun(rest, true)..];
    var a := AuthorityEnd(after, true);
    match HostOf(after[..a], true)
    case None => None
    case Some(host) => if host == "" then None else Some(Url(scheme, host, QueryOf(after[a..])))
  }

  /** The URL after any other scheme: an authority only after `//`, with a
      lower-cased host only for `file`. */
  function OtherUrl(scheme: string, rest: string): Option<Url>
  {
    var special := scheme == "file";
    if |rest| >= 2 && IsSlash(rest[0], special) && IsSlash(rest[1], special) then
      var after := rest[2..];
      var a := AuthorityEnd(after, special);
      match HostOf(after[..a], special)
      case None => None
      case Some(host) => Some(Url(scheme, if special && host == "localhost" then "" else host, QueryOf(after[a..])))
    else Some(Url(scheme, "", QueryOf(rest)))
  }

  /** `searchParams.has(name)`: some `&`-separated piece of the query is
      named `name` (the text before its first `=`). */
  predicate HasParam(query: string, name: string)
  {
    exists piece | piece in Split(query, '&') :: ParamName(piece) == name
  }

  /** The name of a query piece: `+` read as a space, then percent-decoded. */
  function ParamName(piece: string): (r: string)
    ensures |r| <= |piece|
  {
    PercentDecode(PlusAsSpace(BeforeFirst(piece, '=')))
  }

  function PlusAsSpace(s: string): (r: string)
    ensures |r| == |s| && forall i :: 0 <= i < |s| ==> r[i] == (if s[i] == '+' then ' ' else s[i])
  {
    if s == [] then [] else [if s[0] == '+' then ' ' else s[0]] + PlusAsSpace(s[1..])
  }

  /** `isValidGoogleMapsUrl`: the URL parses, its host is exactly
      `maps.google.com` and its query has a `q` parameter. */
  predicate IsValidMapsUrl(url: string)
  {
    var u := ParseUrl(url);
    u.Some? && u.value.hostname == MapsHost && HasParam(u.value.query, "q")
  }

  // ---- What the check accepts ----

  /** A character that can stand in the host of a link written as
      `https://<host>/?<query>` without ending it: printable ASCII other
      than `/`, `\\`, `?`, `#`, `@` and `:`. */
  predicate LinkHostChar(c: char)
  {
    ' ' < c < 127 as char && c != '/' && c != '\\' && c != '?' && c != '#' && c != '@' && c != ':'
  }

  /** A character of a plain query. */
  predicate PlainQueryChar(c: char)
  {
    c > ' ' && c != '#'
  }

  /** A link of the form `https://<host>/?<query>` passes exactly when the
      host, percent-decoded and lower-cased, is `maps.google.com` and the
      query has a parameter whose decoded name is `q`. */
  lemma HttpsLink(h: string, q: string)
    requires h != [] && forall i :: 0 <= i < |h| ==> LinkHostChar(h[i])
    requires forall i :: 0 <= i < |q| ==> PlainQueryChar(q[i])
    ensures IsValidMapsUrl("https://" + h + "/?" + q) <==> DomainOf(h) == Some(MapsHost) && HasParam(q, "q")
  {
    HttpsLinkParses(h, q);
  }

  /** A host of lower-case letters, digits and other characters that need
      no decoding is its own domain. */
  lemma PlainDomain(h: string)
    requires DomainText(h) && forall i :: 0 <= i < |h| ==> !('A' <= h[i] <= 'Z')
    ensures DomainOf(h) == Some(h)
  {
    assert '%' !in h;
    NoEscapeKept(h);
    LowerUnchanged(h);
  }

  /** A host of lower-case letters and dots fits in a link and is its
      own domain. */
  lemma LetterDomain(h: string)
    requires forall i :: 0 <= i < |h| ==> 'a' <= h[i] <= 'z' || h[i] == '.'
    ensures forall i :: 0 <= i < |h| ==> LinkHostChar(h[i])
    ensures DomainOf(h) == Some(h)
  {
    PlainDomain(h);
  }

  /** Percent-escapes and upper-case letters in the host are decoded and
      lower-cased before the host is compared. */
  lemma EncodedHost()
    ensures DomainOf("Maps.Google.%63om") == Some(MapsHost)
  {
    var d := DecodedHost("Maps.Google.", "%63om");
    assert "Maps.Google." + "%63om" == "Maps.Google.%63om";
    PlainHostLowered(d);
  }

  lemma DecodedHost(a: string, b: string) returns (d: string)
    requires a == "Maps.Google." && b == "%63om"
    ensures d == "Maps.Google.com" && PercentDecode(a + b) == d
  {
    PercentDecodeAppend(a, b);
    EscapeDecoded(b, 'c');
    assert b[3..] == "om";
    NoEscapeKept("om");
    d := a + "com";
  }

  lemma PlainHostLowered(d: string)
    requires d == "Maps.Google.com"
    ensures DomainText(d) && Lower(d) == MapsHost
  {
    assert forall i :: 0 <= i < |d| ==> LowerChar(d[i]) == MapsHost[i];
  }

  /** A parameter name written as a percent-escape counts as that name. */
  lemma EncodedName()
    ensures HasParam("%71=studio", "q")
  {
    var s := "%71=studio";
    EncodedNameRead(s);
    assert '&' !in s;
    SinglePiece(s, "q");
  }

  /** A query without `&` is one piece, so it has the parameter it names. */
  lemma SinglePiece(query: string, name: string)
    requires '&' !in query && ParamName(query) == name
    ensures HasParam(query, name)
  {
    SplitWhole(query, '&');
    assert query in Split(query, '&');
  }

  lemma EncodedNameRead(s: string)
    requires s == "%71=studio"
    ensures ParamName(s) == "q"
  {
    assert s[..3] == "%71" && s[3] == '=';
    assert BeforeFirst(s, '=') == "%71";
    var n := "%71";
    assert PlusAsSpace(n) == n;
    EscapeDecoded(n, 'q');
    assert n[3..] == [];
  }

  /** A text without `%` decodes to itself. */
  lemma {:induction false} NoEscapeKept(s: string)
    requires '%' !in s
    ensures PercentDecode(s) == s
  {
    if s != [] {
      assert s[0] in s;
      assert forall c :: c in s[1..] ==> c in s;
      NoEscapeKept(s[1..]);
    }
  }

  /** Decoding a text without `%` before another text keeps the first. */
  lemma {:induction false} PercentDecodeAppend(a: string, b: string)
    requires '%' !in a
    ensures PercentDecode(a + b) == a + PercentDecode(b)
  {
    if a != [] {
      var s := a + b;
      assert a[0] in a && s[0] == a[0] != '%';
      assert !EscapeAt(s);
      assert s[1..] == a[1..] + b;
      assert '%' !in a[1..] by {
        assert forall c :: c in a[1..] ==> c in a;
      }
      PercentDecodeAppend(a[1..], b);
      assert PercentDecode(s) == [s[0]] + PercentDecode(s[1..]);
      assert [a[0]] + (a[1..] + PercentDecode(b)) == a + PercentDecode(b);
    } else {
      assert a + b == b;
    }
  }

  /** An escape at the start of a text decodes to the character it numbers. */
  lemma EscapeDecoded(s: string, c: char)
    requires EscapeAt(s)
    requires JsValue.HexValue(s[1]) * 16 + JsValue.HexValue(s[2]) == c as int
    ensures PercentDecode(s) == [c] + PercentDecode(s[3..])
  {
    assert (c as int) as char == c;
  }

  lemma HttpsLinkParses(h: string, q: string)
    requires h != [] && forall i :: 0 <= i < |h| ==> LinkHostChar(h[i])
    requires forall i :: 0 <= i < |q| ==> PlainQueryChar(q[i])
    ensures ParseUrl("https://" + h + "/?" + q) == if DomainOf(h).Some? then Some(Url("https", DomainOf(h).value, q)) else None
  {
    HttpsLinkText(h, q);
    PlainCleaned("https://" + h + "/?" + q);
    ParseHttps("https://" + h + "/?" + q, "//" + (h + ("/?" + q)));
    HttpsRest(h, q);
  }

  /** A clean text starting with `https:` is parsed as a network URL. */
  lemma ParseHttps(s: string, rest: string)
    requires s == "https:" + rest && Cleaned(s) == s
    ensures ParseUrl(s) == NetworkUrl("https", rest)
  {
    HttpsScheme(s, rest);
    ParseCleanHttps(s, rest);
  }

  lemma ParseCleanHttps(s: string, rest: string)
    requires Cleaned(s) == s && SchemeEnd(s) == Some(5) && Lower(s[..5]) == "https" && s[6..] == rest
    ensures ParseUrl(s) == NetworkUrl("https", rest)
  {
    assert "https" in NetworkSchemes;
  }

  lemma HttpsScheme(s: string, rest: string)
    requires s == "https:" + rest
    ensures SchemeEnd(s) == Some(5) && Lower(s[..5]) == "https" && s[6..] == rest
  {
    SchemeRunStops(s, 5);
    assert s[..5] == "https";
    LowerUnchanged("https");
  }

  lemma HttpsRest(h: string, q: string)
    requires h != [] && forall i :: 0 <= i < |h| ==> LinkHostChar(h[i])
    requires forall i :: 0 <= i < |q| ==> PlainQueryChar(q[i])
    ensures NetworkUrl("https", "//" + (h + ("/?" + q))) == if DomainOf(h).Some? then Some(Url("https", DomainOf(h).value, q)) else None
  {
    var tail := "/?" + q;
    var after := h + tail;
    var rest := "//" + after;
    SlashRunTwo(rest, after);
    AuthorityEndStops(after, |h|);
    assert after[..|h|] == h && after[|h|..] == tail;
    HostOfPlain(h);
    QueryOfPlain(q);
  }

  /** The characters of such a link. */
  lemma HttpsLinkText(h: string, q: string)
    requires forall i :: 0 <= i < |h| ==> LinkHostChar(h[i])
    requires forall i :: 0 <= i < |q| ==> PlainQueryChar(q[i])
    ensures "https://" + h + "/?" + q == "https:" + ("//" + (h + ("/?" + q)))
    ensures var s := "https://" + h + "/?" + q; forall i :: 0 <= i < |s| ==> s[i] > ' '
  {
    var s := "https://" + h + "/?" + q;
    forall i | 0 <= i < |s| ensures s[i] > ' ' {
      if i >= 8 + |h| + 2 {
        assert s[i] == q[i - 8 - |h| - 2];
      } else if i >= 8 && i < 8 + |h| {
        assert s[i] == h[i - 8];
      }
    }
  }

  /** A text without control characters or spaces is parsed as it is. */
  lemma PlainCleaned(s: string)
    requires forall i :: 0 <= i < |s| ==> s[i] > ' '
    ensures Cleaned(s) == s
  {
    assert DropLeading(s) == s;
    assert DropTrailingSpace(s) == s;
  }

  lemma {:induction false} SchemeRunStops(s: string, k: nat)
    requires k < |s| && !IsSchemeChar(s[k]) && forall i :: 0 <= i < k ==> IsSchemeChar(s[i])
    ensures SchemeRun(s) == k
  {
    if k > 0 {
      assert forall i :: 0 <= i < k - 1 ==> s[1..][i] == s[i + 1];
      SchemeRunStops(s[1..], k - 1);
    }
  }

  lemma SlashRunTwo(rest: string, after: string)
    requires rest == "//" + after && after != [] && !IsSlash(after[0], true)
    ensures SlashRun(rest, true) == 2 && rest[2..] == after
  {
    var r1 := rest[1..];
    assert r1[1..] == after;
    assert SlashRun(after, true) == 0;
    assert SlashRun(r1, true) == 1;
  }

  lemma {:induction false} AuthorityEndStops(s: string, k: nat)
    requires k < |s| && IsSlash(s[k], true)
    requires forall i :: 0 <= i < k ==> !IsSlash(s[i], true) && s[i] != '?' && s[i] != '#'
    ensures AuthorityEnd(s, true) == k
  {
    if k > 0 {
      assert forall i :: 0 <= i < k - 1 ==> s[1..][i] == s[i + 1];
      AuthorityEndStops(s[1..], k - 1);
    }
  }

  /** A text without a colon has no scheme, so it does not parse and the
      check answers false instead of throwing. */
  lemma NoSchemeRejected(url: string)
    requires ':' !in url
    ensures ParseUrl(url) == None && !IsValidMapsUrl(url)
  {
    var a := DropLeading(url);
    assert a == url[|url| - |a|..];
    var b := DropTrailingSpace(a);
    assert b == a[..|b|];
    assert ':' !in Cleaned(url);
  }

  lemma BeforeFirstAbsent(s: string, c: char)
    requires c !in s
    ensures BeforeFirst(s, c) == s
  {
  }

  lemma HostOfPlain(h: string)
    requires forall i :: 0 <= i < |h| ==> LinkHostChar(h[i])
    ensures HostOf(h, true) == DomainOf(h)
  {
    assert '@' !in h && ':' !in h;
    BeforeFirstAbsent(h, ':');
    assert PortOf(h) == "";
  }

  lemma QueryOfPlain(q: string)
    requires forall i :: 0 <= i < |q| ==> PlainQueryChar(q[i])
    ensures QueryOf("/?" + q) == q
  {
    var tail := "/?" + q;
    assert '#' !in tail by {
      forall i | 0 <= i < |tail| ensures tail[i] != '#' {
        if i >= 2 {
          assert tail[i] == q[i - 2];
        }
      }
    }
    BeforeFirstAbsent(tail, '#');
    assert tail[1..][0] == '?';
    assert BeforeFirst(tail, '?') == "/";
    assert tail[2..] == q;
  }
}

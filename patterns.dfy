// The languages of the regular expressions the content API and the site
// test strings against, written out as predicates. Each regular expression
// is quoted in the comment above its predicate only by name; the predicate
// states which strings it accepts.
module Patterns {
  import opened Strings
  import JsValue

  predicate IsAsciiLetter(c: char) { 'a' <= c <= 'z' || 'A' <= c <= 'Z' }

  predicate IsAsciiAlnum(c: char) { IsAsciiLetter(c) || IsDigit(c) }

  /** The extensions an image path or an image file may end in. */
  const ImageExtensions: seq<string> := ["jpg", "jpeg", "png", "gif", "webp"]

  /** Case-insensitively, `s` ends in `.` followed by one of the image
      extensions (`/\.(jpg|jpeg|png|gif|webp)$/i`). */
  predicate HasImageExtension(s: string)
  {
    exists e | e in ImageExtensions :: EndsWith(Lower(s), "." + e)
  }

  /** Characters allowed between `/images/` and the extension of an image path. */
  predicate IsImagePathChar(c: char)
  {
    IsAsciiAlnum(c) || c == '_' || c == '-' || c == '/' || c == '.' || IsSpace(c)
  }

  /** The image path rule of the content schemas: case-insensitively
      `/images/`, then one or more path characters (letters, digits, `_`,
      `-`, `/`, `.`, whitespace), then `.` and an image extension. */
  predicate ImagePath(s: string)
  {
    StartsWith(Lower(s), "/images/")
    && exists e | e in ImageExtensions ::
         EndsWith(Lower(s), "." + e) && |s| >= 8 + 1 + 1 + |e|
         && forall i | 8 <= i < |s| - 1 - |e| :: IsImagePathChar(s[i])
  }

  const ImagePathSource := "/^\\/images\\/[a-zA-Z0-9_\\-\\/\\.\\s]+\\.(jpg|jpeg|png|gif|webp)$/i"

  predicate IsFileNameChar(c: char)
  {
    IsAsciiAlnum(c) || c == '_' || c == '-' || c == '.'
  }

  /** The upload file-name rule: one or more letters, digits, `_`, `-`, `.`. */
  predicate FileName(s: string)
  {
    |s| >= 1 && forall i | 0 <= i < |s| :: IsFileNameChar(s[i])
  }

  const FileNameSource := "/^[a-zA-Z0-9_\\-\\.]+$/"

  predicate IsPhoneTailChar(c: char)
  {
    IsDigit(c) || IsSpace(c) || c == '-' || c == '(' || c == ')'
  }

  /** The phone rule: an optional `+`, a digit 1-9, then at most 20 digits,
      whitespace, `-`, `(` or `)`. */
  predicate Phone(s: string)
  {
    if s != [] && s[0] == '+' then PhoneNumber(s[1..]) else PhoneNumber(s)
  }

  predicate PhoneNumber(t: string)
  {
    1 <= |t| <= 21 && '1' <= t[0] <= '9' && forall i | 1 <= i < |t| :: IsPhoneTailChar(t[i])
  }

  const PhoneSource := "/^[\\+]?[1-9][\\d\\s\\-\\(\\)]{0,20}$/"

  predicate IsEmailLocalChar(c: char)
  {
    IsAsciiAlnum(c) || c in "!#$%&'*+/=?^_`{|}~-"
  }

  predicate IsDomainLabel(l: string)
  {
    1 <= |l| <= 63 && l[0] != '-' && l[|l| - 1] != '-'
    && forall i | 0 <= i < |l| :: IsAsciiAlnum(l[i]) || l[i] == '-'
  }

  /** The library's e-mail rule, restricted to ASCII addresses: one `@`; a
      local part of dot-separated atoms; a domain of at least two labels
      whose last label (the top-level domain) is at least two letters; at
      most 254 characters in all. */
  predicate Email(s: string)
  {
    |s| <= 254
    && exists at | 0 < at < |s| - 1 :: s[at] == '@' && EmailLocal(s[..at]) && EmailDomain(s[at + 1..])
  }

  predicate EmailLocal(l: string)
  {
    1 <= |l| <= 64 && l[0] != '.' && l[|l| - 1] != '.'
    && forall i | 0 <= i < |l| :: IsEmailLocalChar(l[i]) || (l[i] == '.' && (i + 1 < |l| ==> l[i + 1] != '.'))
  }

  predicate EmailDomain(d: string)
  {
    DomainLabels(Split(d, '.'))
  }

  predicate DomainLabels(labels: seq<string>)
  {
    |labels| >= 2 && (forall i | 0 <= i < |labels| :: IsDomainLabel(labels[i]))
    && TopLevelDomain(labels[|labels| - 1])
  }

  predicate TopLevelDomain(l: string)
  {
    |l| >= 2 && forall i | 0 <= i < |l| :: IsAsciiLetter(l[i])
  }

  predicate IsUriChar(c: char)
  {
    IsAsciiAlnum(c) || c in "-._~:/?#[]@!$&'()*+,;=%"
  }

  /** The library's URI rule, simplified: a scheme (a letter, then
      letters, digits, `+`, `-`, `.`), a `:`, then URI characters only,
      where every `%` starts an escape of two hexadecimal digits and at
      most one `#` begins the fragment. */
  predicate Uri(s: string)
  {
    var colon := ColonAt(s);
    1 <= colon < |s| && IsAsciiLetter(s[0])
    && (forall i | 1 <= i < colon :: IsAsciiAlnum(s[i]) || s[i] in "+-.")
    && forall i | colon < i < |s| :: UriCharAt(s, i)
  }

  /** The position of the first `:`, `|s|` when there is none. */
  function ColonAt(s: string): (k: nat)
    ensures k <= |s| && (k < |s| ==> s[k] == ':')
    ensures forall i | 0 <= i < k :: s[i] != ':'
  {
    if s == [] || s[0] == ':' then 0 else 1 + ColonAt(s[1..])
  }

  /** The character at `i` may stand after the scheme. */
  predicate UriCharAt(s: string, i: nat)
    requires i < |s|
  {
    IsUriChar(s[i]) && (s[i] == '%' ==> Escape(s, i)) && (s[i] == '#' ==> '#' !in s[i + 1..])
  }

  /** A `%` at `i` followed by two hexadecimal digits. */
  predicate Escape(s: string, i: nat)
  {
    i + 2 < |s| && JsValue.IsHexDigit(s[i + 1]) && JsValue.IsHexDigit(s[i + 2])
  }

  /** The scheme ends at the first `:`. */
  lemma SchemeEnd(s: string, scheme: string, rest: string)
    requires s == scheme + ":" + rest && ':' !in scheme
    ensures ColonAt(s) == |scheme|
  {
    assert s[|scheme|] == ':';
    assert forall i | 0 <= i < |scheme| :: s[i] == scheme[i];
  }

  /** A scheme of letters, a `:` and URI characters other than `%` and
      `#` make a URI. */
  lemma PlainUriAccepted(s: string, scheme: string, rest: string)
    requires s == scheme + ":" + rest && scheme != []
    requires forall i | 0 <= i < |scheme| :: IsAsciiLetter(scheme[i])
    requires rest != [] && forall i | 0 <= i < |rest| :: IsUriChar(rest[i]) && rest[i] != '%' && rest[i] != '#'
    ensures Uri(s)
  {
    SchemeEnd(s, scheme, rest);
    forall i | |scheme| < i < |s|
      ensures UriCharAt(s, i)
    {
      assert s[i] == rest[i - |scheme| - 1];
    }
  }

  /** A `%` not followed by two hexadecimal digits is no URI. */
  lemma BadEscapeRefused(s: string, scheme: string, rest: string)
    requires s == scheme + ":%" + rest && ':' !in scheme
    requires |rest| < 2 || !JsValue.IsHexDigit(rest[0]) || !JsValue.IsHexDigit(rest[1])
    ensures !Uri(s)
  {
    SchemeEnd(s, scheme, "%" + rest);
    var k := |scheme| + 1;
    assert s[k] == '%' && !Escape(s, k);
    assert !UriCharAt(s, k);
  }

  /** A second `#` is no URI. */
  lemma SecondFragmentRefused(s: string, scheme: string, a: string, b: string, c: string)
    requires s == scheme + ":" + a + "#" + b + "#" + c && ':' !in scheme
    ensures !Uri(s)
  {
    SchemeEnd(s, scheme, a + "#" + b + "#" + c);
    var k := |scheme| + 1 + |a|;
    assert s[k] == '#' && s[k + 1..][|b|] == '#';
    assert !UriCharAt(s, k);
  }

  /** Neither whitespace nor `@`. */
  predicate IsPlainChar(c: char)
  {
    !IsSpace(c) && c != '@'
  }

  /** The anchored e-mail pattern of the site's own checks and of the contact
      endpoint: text without whitespace or `@`, one `@`, then text without
      whitespace or `@` that has a `.` with at least one character on each side. */
  predicate SimpleEmail(s: string)
  {
    exists at | 0 < at < |s| ::
      s[at] == '@' && (forall i | 0 <= i < |s| && i != at :: IsPlainChar(s[i]))
      && exists dot | at + 1 < dot < |s| - 1 :: s[dot] == '.'
  }

  /** The unanchored e-mail pattern of the dynamic contact page: somewhere in
      `s`, a non-space character, `@`, non-space characters, `.`, and a
      non-space character. */
  predicate LooseEmail(s: string)
  {
    exists at | 0 < at < |s| :: s[at] == '@' && !IsSpace(s[at - 1]) && LooseDomainAfter(s, at)
  }

  /** After position `at`: non-space characters, then `.` and a non-space character. */
  predicate LooseDomainAfter(s: string, at: int)
    requires 0 <= at < |s|
  {
    exists dot | at + 1 < dot < |s| - 1 :: s[dot] == '.' && !IsSpace(s[dot + 1]) && NoSpace(s[at + 1..dot])
  }

  /** Whatever the anchored pattern accepts, the unanchored one accepts too. */
  lemma SimpleEmailIsLoose(s: string)
    requires SimpleEmail(s)
    ensures LooseEmail(s)
  {
    var at :| 0 < at < |s| && s[at] == '@' && (forall i | 0 <= i < |s| && i != at :: IsPlainChar(s[i]))
              && exists dot | at + 1 < dot < |s| - 1 :: s[dot] == '.';
    var dot :| at + 1 < dot < |s| - 1 && s[dot] == '.';
    assert IsPlainChar(s[at - 1]) && IsPlainChar(s[dot + 1]);
    assert forall i | at < i < dot :: IsPlainChar(s[i]);
    assert NoSpace(s[at + 1..dot]);
  }

  /** An address the anchored pattern accepts has exactly one `@`. */
  lemma SimpleEmailOneAt(s: string, i: int, j: int)
    requires SimpleEmail(s)
    requires 0 <= i < j < |s|
    ensures !(s[i] == '@' && s[j] == '@')
  {
    var at :| 0 < at < |s| && s[at] == '@' && (forall k | 0 <= k < |s| && k != at :: IsPlainChar(s[k]))
              && exists dot | at + 1 < dot < |s| - 1 :: s[dot] == '.';
    if i != at { assert IsPlainChar(s[i]); } else { assert IsPlainChar(s[j]); }
  }
}

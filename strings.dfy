// String helpers with the meaning JavaScript gives them (String.prototype.trim,
// startsWith, includes, split on one character, replace of the first
// occurrence, toLowerCase/toUpperCase restricted to ASCII) and decimal text.
module Strings {
  import opened Wrappers

  /** JavaScript's whitespace and line terminators: the characters `\s`
      matches and `trim` removes. */
  predicate IsSpace(c: char)
  {
    c == ' ' || c == '\t' || c == '\n' || c == '\U{000B}' || c == '\U{000C}' || c == '\r'
    || c == '\U{00A0}' || c == '\U{1680}' || ('\U{2000}' <= c <= '\U{200A}')
    || c == '\U{2028}' || c == '\U{2029}' || c == '\U{202F}' || c == '\U{205F}'
    || c == '\U{3000}' || c == '\U{FEFF}'
  }

  predicate AllSpace(s: string)
  {
    forall i :: 0 <= i < |s| ==> IsSpace(s[i])
  }

  predicate NoSpace(s: string)
  {
    forall i :: 0 <= i < |s| ==> !IsSpace(s[i])
  }

  /** The number of whitespace characters `s` starts with. */
  function LeadingSpace(s: string): (k: nat)
    ensures k <= |s|
    ensures forall i :: 0 <= i < k ==> IsSpace(s[i])
    ensures k < |s| ==> !IsSpace(s[k])
  {
    if s != [] && IsSpace(s[0]) then
      var k := 1 + LeadingSpace(s[1..]);
      assert forall i :: 1 <= i < k ==> s[i] == s[1..][i - 1];
      k
    else 0
  }

  /** The length of `s` without the whitespace it ends with. */
  function ContentEnd(s: string): (k: nat)
    ensures k <= |s|
    ensures forall i :: k <= i < |s| ==> IsSpace(s[i])
    ensures k > 0 ==> !IsSpace(s[k - 1])
  {
    if s != [] && IsSpace(s[|s| - 1]) then
      var k := ContentEnd(s[..|s| - 1]);
      assert forall i :: k <= i < |s| - 1 ==> s[i] == s[..|s| - 1][i];
      k
    else |s|
  }

  /** String.prototype.trimStart. */
  function TrimStart(s: string): (r: string)
    ensures |r| <= |s|
    ensures r == [] || !IsSpace(r[0])
  {
    if s != [] && IsSpace(s[0]) then TrimStart(s[1..]) else s
  }

  /** String.prototype.trimEnd. */
  function TrimEnd(s: string): (r: string)
    ensures |r| <= |s|
    ensures r == [] || !IsSpace(r[|r| - 1])
  {
    if s != [] && IsSpace(s[|s| - 1]) then TrimEnd(s[..|s| - 1]) else s
  }

  /** `trimStart` drops exactly the leading whitespace. */
  lemma {:induction false} TrimStartDrops(s: string)
    ensures TrimStart(s) == s[LeadingSpace(s)..]
  {
    if s != [] && IsSpace(s[0]) {
      TrimStartDrops(s[1..]);
      assert s[1..][LeadingSpace(s[1..])..] == s[1 + LeadingSpace(s[1..])..];
    }
  }

  /** `trimEnd` keeps exactly what precedes the trailing whitespace. */
  lemma {:induction false} TrimEndKeeps(s: string)
    ensures TrimEnd(s) == s[..ContentEnd(s)]
  {
    if s != [] && IsSpace(s[|s| - 1]) {
      TrimEndKeeps(s[..|s| - 1]);
      assert s[..|s| - 1][..ContentEnd(s[..|s| - 1])] == s[..ContentEnd(s[..|s| - 1])];
    }
  }

  /** Neither starts nor ends with whitespace: what `trim` leaves alone. */
  predicate Trimmed(s: string)
  {
    s == [] || (!IsSpace(s[0]) && !IsSpace(s[|s| - 1]))
  }

  /** String.prototype.trim. */
  function Trim(s: string): (r: string)
    ensures Trimmed(r) && |r| <= |s|
  {
    var t := TrimStart(s);
    var r := TrimEnd(t);
    TrimEndKeeps(t);
    assert r != [] ==> r[0] == t[0];
    r
  }

  /** Trimming yields a trimmed string, and leaves a trimmed one unchanged. */
  lemma TrimmedIff(s: string)
    ensures Trimmed(Trim(s))
    ensures Trimmed(s) <==> Trim(s) == s
  {
    if Trimmed(s) && s != [] {
      assert TrimStart(s) == s;
      assert TrimEnd(s) == s;
    }
  }

  /** Only an all-whitespace string trims to the empty string. */
  lemma TrimEmptyIff(s: string)
    ensures Trim(s) == [] <==> AllSpace(s)
  {
    var a := LeadingSpace(s);
    var t := s[a..];
    var e := ContentEnd(t);
    TrimStartDrops(s);
    TrimEndKeeps(t);
    if AllSpace(s) {
      assert a == |s|;
    } else {
      var i :| 0 <= i < |s| && !IsSpace(s[i]);
      assert t[i - a] == s[i];
      assert e > i - a;
    }
  }

  /** Some character of `s` is not whitespace. */
  predicate HasNonSpace(s: string)
  {
    s != [] && (!IsSpace(s[0]) || HasNonSpace(s[1..]))
  }

  lemma {:induction false} HasNonSpaceIff(s: string)
    ensures HasNonSpace(s) <==> !AllSpace(s)
  {
    if s != [] {
      HasNonSpaceIff(s[1..]);
      assert forall i :: 1 <= i < |s| ==> s[i] == s[1..][i - 1];
    }
  }

  /** `s.trim().length > 0` exactly when `s` has a character that is not
      whitespace. */
  lemma TrimNonEmptyIff(s: string)
    ensures Trim(s) != [] <==> HasNonSpace(s)
  {
    TrimEmptyIff(s);
    HasNonSpaceIff(s);
  }

  lemma TrimIdempotent(s: string)
    ensures Trim(Trim(s)) == Trim(s)
  {
    TrimmedIff(Trim(s));
  }

  predicate StartsWith(s: string, prefix: string)
  {
    |prefix| <= |s| && s[..|prefix|] == prefix
  }

  predicate EndsWith(s: string, suffix: string)
  {
    |suffix| <= |s| && s[|s| - |suffix|..] == suffix
  }

  /** `sub` occurs in `s` starting at position `i`. */
  predicate OccursAt(s: string, sub: string, i: int)
  {
    0 <= i && i + |sub| <= |s| && s[i..i + |sub|] == sub
  }

  /** String.prototype.includes. */
  predicate Contains(s: string, sub: string)
  {
    exists i | 0 <= i <= |s| - |sub| :: OccursAt(s, sub, i)
  }

  lemma OccursAtTail(s: string, sub: string, i: int)
    requires 1 <= i && s != []
    ensures OccursAt(s, sub, i) == OccursAt(s[1..], sub, i - 1)
  {
    if i + |sub| <= |s| {
      var x, y := s[i..i + |sub|], s[1..][i - 1..i - 1 + |sub|];
      assert forall k :: 0 <= k < |sub| ==> x[k] == y[k];
      assert x == y;
    }
  }

  /** String.prototype.indexOf: the first position where `sub` occurs. */
  function IndexOf(s: string, sub: string): (r: Option<nat>)
    ensures r.Some? ==> OccursAt(s, sub, r.value)
    ensures r.Some? ==> forall j :: 0 <= j < r.value ==> !OccursAt(s, sub, j)
    ensures r.None? <==> !Contains(s, sub)
    decreases |s|
  {
    if |sub| > |s| then None
    else if s[..|sub|] == sub then Some(0)
    else
      match IndexOf(s[1..], sub)
      case None =>
        forall i | 1 <= i <= |s| - |sub| ensures !OccursAt(s, sub, i) { OccursAtTail(s, sub, i); }
        None
      case Some(k) =>
        OccursAtTail(s, sub, k + 1);
        forall j | 1 <= j < k + 1 ensures !OccursAt(s, sub, j) { OccursAtTail(s, sub, j); }
        Some(k + 1)
  }

  /** String.prototype.replace with a string pattern: only the first
      occurrence is replaced. */
  function ReplaceFirst(s: string, pattern: string, replacement: string): (r: string)
    ensures !Contains(s, pattern) ==> r == s
    ensures Contains(s, pattern) ==>
      exists i :: OccursAt(s, pattern, i) && (forall j :: 0 <= j < i ==> !OccursAt(s, pattern, j))
                  && r == s[..i] + replacement + s[i + |pattern|..]
  {
    match IndexOf(s, pattern)
    case None => s
    case Some(i) => s[..i] + replacement + s[i + |pattern|..]
  }

  /** The first occurrence is the one replaced. */
  lemma ReplaceFirstAt(s: string, pattern: string, replacement: string, i: nat)
    requires OccursAt(s, pattern, i) && forall j :: 0 <= j < i ==> !OccursAt(s, pattern, j)
    ensures ReplaceFirst(s, pattern, replacement) == s[..i] + replacement + s[i + |pattern|..]
  {
    assert Contains(s, pattern);
    var k := IndexOf(s, pattern).value;
    assert !(k < i) && !(i < k);
  }

  function LowerChar(c: char): (r: char)
    ensures 'A' <= c <= 'Z' ==> r as int == c as int + 32
    ensures !('A' <= c <= 'Z') ==> r == c
  {
    if 'A' <= c <= 'Z' then (c as int + 32) as char else c
  }

  function UpperChar(c: char): (r: char)
    ensures 'a' <= c <= 'z' ==> r as int == c as int - 32
    ensures !('a' <= c <= 'z') ==> r == c
  {
    if 'a' <= c <= 'z' then (c as int - 32) as char else c
  }

  /** toLowerCase on the ASCII letters. */
  function Lower(s: string): (r: string)
    ensures |r| == |s| && forall i :: 0 <= i < |s| ==> r[i] == LowerChar(s[i])
  {
    if s == [] then [] else [LowerChar(s[0])] + Lower(s[1..])
  }

  /** A string without upper-case ASCII letters is its own lower case. */
  lemma LowerUnchanged(s: string)
    requires forall i :: 0 <= i < |s| ==> !('A' <= s[i] <= 'Z')
    ensures Lower(s) == s
  {
    assert forall i :: 0 <= i < |s| ==> Lower(s)[i] == s[i];
  }

  /** toUpperCase on the ASCII letters. */
  function Upper(s: string): (r: string)
    ensures |r| == |s| && forall i :: 0 <= i < |s| ==> r[i] == UpperChar(s[i])
  {
    if s == [] then [] else [UpperChar(s[0])] + Upper(s[1..])
  }

  /** `s.replace(/\s+/g, '')`: every whitespace character removed, the rest
      kept in order. */
  function RemoveSpaces(s: string): (r: string)
    ensures NoSpace(r) && |r| <= |s|
  {
    if s == [] then []
    else if IsSpace(s[0]) then RemoveSpaces(s[1..])
    else [s[0]] + RemoveSpaces(s[1..])
  }

  /** What is left is exactly the characters that are not whitespace. */
  lemma {:induction false} RemoveSpacesMembers(s: string)
    ensures forall c :: c in RemoveSpaces(s) <==> c in s && !IsSpace(c)
  {
    if s != [] {
      RemoveSpacesMembers(s[1..]);
      assert forall c :: c in s <==> c == s[0] || c in s[1..];
    }
  }

  /** A string without whitespace is left as it is. */
  lemma {:induction false} RemoveSpacesUnchanged(s: string)
    requires NoSpace(s)
    ensures RemoveSpaces(s) == s
  {
    if s != [] {
      assert !IsSpace(s[0]);
      RemoveSpacesUnchanged(s[1..]);
    }
  }

  /** Array.prototype.join. */
  function Join(parts: seq<string>, sep: string): string
  {
    if |parts| == 0 then "" else if |parts| == 1 then parts[0] else parts[0] + sep + Join(parts[1..], sep)
  }

  /** No occurrence of the separator before `i` leaves the prefix free of it. */
  lemma SeparatorFree(s: string, sep: char, i: nat)
    requires i <= |s| && forall j :: 0 <= j < i ==> !OccursAt(s, [sep], j)
    ensures sep !in s[..i]
  {
    forall k | 0 <= k < i ensures s[k] != sep {
      assert s[k..k + 1] == [s[k]];
      assert !OccursAt(s, [sep], k);
    }
  }

  /** String.prototype.split with a one-character separator. */
  function Split(s: string, sep: char): (r: seq<string>)
    ensures |r| >= 1
    ensures forall i :: 0 <= i < |r| ==> sep !in r[i]
    ensures Join(r, [sep]) == s
    decreases |s|
  {
    match IndexOf(s, [sep])
    case None =>
      SeparatorFree(s, sep, |s|);
      assert s[..|s|] == s;
      [s]
    case Some(i) =>
      var head, tail := s[..i], s[i + 1..];
      var rest := Split(tail, sep);
      SeparatorFree(s, sep, i);
      JoinAtSeparator(s, sep, i, rest);
      [head] + rest
  }

  /** A text without the separator splits into itself alone. */
  lemma SplitWhole(s: string, sep: char)
    requires sep !in s
    ensures Split(s, sep) == [s]
  {
  }

  /** Joining the text before the first separator with the parts of the
      text after it gives back the whole text. */
  lemma JoinAtSeparator(s: string, sep: char, i: nat, rest: seq<string>)
    requires OccursAt(s, [sep], i) && |rest| >= 1 && Join(rest, [sep]) == s[i + 1..]
    ensures Join([s[..i]] + rest, [sep]) == s
  {
    JoinCons(s[..i], rest, [sep]);
    assert s[i..i + 1] == [sep];
    AroundIndex(s, i);
  }

  lemma JoinCons(head: string, rest: seq<string>, sep: string)
    requires |rest| >= 1
    ensures Join([head] + rest, sep) == head + sep + Join(rest, sep)
  {
    assert ([head] + rest)[1..] == rest;
  }

  lemma AroundIndex(s: string, i: nat)
    requires i < |s|
    ensures s == s[..i] + s[i..i + 1] + s[i + 1..]
  {
    assert s[i..] == s[i..i + 1] + s[i + 1..];
    assert s == s[..i] + s[i..];
  }

  function DigitChar(d: nat): (c: char)
    requires d < 10
    ensures '0' <= c <= '9' && c as int - '0' as int == d
  {
    ('0' as int + d) as char
  }

  predicate IsDigit(c: char)
  {
    '0' <= c <= '9'
  }

  function DigitValue(c: char): (d: nat)
    requires IsDigit(c)
    ensures d < 10 && DigitChar(d) == c
  {
    c as int - '0' as int
  }

  /** Decimal text of a natural number, as String(n) writes it. */
  function NatText(n: nat): (r: string)
    ensures |r| >= 1 && forall i :: 0 <= i < |r| ==> IsDigit(r[i])
    ensures |r| > 1 ==> r[0] != '0'
  {
    if n < 10 then [DigitChar(n)] else NatText(n / 10) + [DigitChar(n % 10)]
  }

  /** The value of a nonempty string of decimal digits. */
  function DigitsValue(s: string): nat
    requires forall i :: 0 <= i < |s| ==> IsDigit(s[i])
  {
    if s == [] then 0 else DigitsValue(s[..|s| - 1]) * 10 + DigitValue(s[|s| - 1])
  }

  /** Different numbers have different decimal texts. */
  lemma NatTextInjective()
    ensures forall i: nat, j: nat :: NatText(i) == NatText(j) ==> i == j
  {
    forall i: nat, j: nat | NatText(i) == NatText(j) ensures i == j {
      DigitsValueOfNatText(i);
      DigitsValueOfNatText(j);
    }
  }

  lemma {:induction false} DigitsValueOfNatText(n: nat)
    ensures DigitsValue(NatText(n)) == n
  {
    if n >= 10 {
      var t := NatText(n);
      assert t[..|t| - 1] == NatText(n / 10);
      DigitsValueOfNatText(n / 10);
    }
  }

  /** Decimal text of an integer, as String(i) writes it. */
  function IntText(i: int): (r: string)
    ensures |r| >= 1
    ensures i < 0 <==> r[0] == '-'
  {
    if i < 0 then "-" + NatText(-i) else NatText(i)
  }

  /** Lexicographic order on strings, by code point. */
  predicate LexLe(a: string, b: string)
  {
    a == [] || (b != [] && (a[0] < b[0] || (a[0] == b[0] && LexLe(a[1..], b[1..]))))
  }

  lemma {:induction false} LexTotal(a: string, b: string)
    ensures LexLe(a, b) || LexLe(b, a)
  {
    if a != [] && b != [] && a[0] == b[0] { LexTotal(a[1..], b[1..]); }
  }

  lemma {:induction false} LexAntisymmetric(a: string, b: string)
    requires LexLe(a, b) && LexLe(b, a)
    ensures a == b
  {
    if a != [] && b != [] {
      LexAntisymmetric(a[1..], b[1..]);
      assert a == [a[0]] + a[1..] && b == [b[0]] + b[1..];
    }
  }

  lemma {:induction false} LexTransitive(a: string, b: string, c: string)
    requires LexLe(a, b) && LexLe(b, c)
    ensures LexLe(a, c)
  {
    if a != [] && b != [] && c != [] && a[0] == b[0] && b[0] == c[0] {
      LexTransitive(a[1..], b[1..], c[1..]);
    }
  }

  lemma LexAntisymmetricAll()
    ensures forall a, b :: LexLe(a, b) && LexLe(b, a) ==> a == b
  {
    forall a, b | LexLe(a, b) && LexLe(b, a) ensures a == b { LexAntisymmetric(a, b); }
  }

  predicate IsLeast(k: string, ks: set<string>)
  {
    k in ks && forall j :: j in ks ==> LexLe(k, j)
  }

  lemma {:induction false} LeastExists(ks: set<string>)
    requires ks != {}
    ensures exists k :: IsLeast(k, ks)
    decreases |ks|
  {
    var x :| x in ks;
    if ks == {x} {
      LexTotal(x, x);
      assert IsLeast(x, ks);
    } else {
      var rest := ks - {x};
      LeastExists(rest);
      var m :| IsLeast(m, rest);
      LexTotal(x, m);
      if LexLe(x, m) {
        forall j | j in ks ensures LexLe(x, j) {
          if j == x { LexTotal(x, x); } else { assert j in rest; LexTransitive(x, m, j); }
        }
        assert IsLeast(x, ks);
      } else {
        forall j | j in ks ensures LexLe(m, j) {
          if j != x { assert j in rest; }
        }
        assert IsLeast(m, ks);
      }
    }
  }

  /** The strings of a set in increasing lexicographic order. */
  function SortedKeys(ks: set<string>): (r: seq<string>)
    ensures |r| == |ks|
    ensures forall k :: k in r <==> k in ks
    ensures forall i, j :: 0 <= i < j < |r| ==> LexLe(r[i], r[j]) && r[i] != r[j]
    decreases |ks|
  {
    if ks == {} then []
    else
      LeastExists(ks);
      LexAntisymmetricAll();
      var k :| IsLeast(k, ks);
      var rest := SortedKeys(ks - {k});
      [k] + rest
  }
}

// How JavaScript measures and encodes text: a string's `length` counts
// UTF-16 code units, and the password hasher works on the UTF-8 bytes of
// its input. A Dafny `char` is a Unicode scalar value.
module Unicode {
  type Byte = b: int | 0 <= b < 256

  // ---- UTF-16 ----

  /** A character outside the Basic Multilingual Plane, which UTF-16
      writes as a surrogate pair. */
  predicate Astral(c: char)
  {
    c as int >= 0x10000
  }

  /** The number of UTF-16 code units of one character. */
  function Units(c: char): (n: nat)
    ensures n == (if Astral(c) then 2 else 1)
  {
    if Astral(c) then 2 else 1
  }

  /** `s.length` in JavaScript: UTF-16 code units, two for every astral
      character. */
  function Utf16Length(s: string): (n: nat)
    ensures |s| <= n <= 2 * |s|
  {
    if s == [] then 0 else Units(s[0]) + Utf16Length(s[1..])
  }

  /** Text without astral characters has as many code units as
      characters. */
  lemma {:induction false} BasicPlaneLength(s: string)
    requires forall i :: 0 <= i < |s| ==> !Astral(s[i])
    ensures Utf16Length(s) == |s|
  {
    if s != [] {
      BasicPlaneLength(s[1..]);
    }
  }

  /** Text made only of astral characters counts twice its characters. */
  lemma {:induction false} AstralLength(s: string)
    requires forall i :: 0 <= i < |s| ==> Astral(s[i])
    ensures Utf16Length(s) == 2 * |s|
  {
    if s != [] {
      AstralLength(s[1..]);
    }
  }

  lemma {:induction false} Utf16LengthAppend(s: string, t: string)
    ensures Utf16Length(s + t) == Utf16Length(s) + Utf16Length(t)
  {
    if s != [] {
      assert (s + t)[0] == s[0] && (s + t)[1..] == s[1..] + t;
      Utf16LengthAppend(s[1..], t);
    } else {
      assert s + t == t;
    }
  }

  // ---- UTF-8 ----

  /** The UTF-8 bytes of one character: one byte below U+0080, then two,
      three or four, a lead byte marking the length followed by
      continuation bytes `10xxxxxx`. */
  function CharBytes(c: char): (r: seq<Byte>)
    ensures 1 <= |r| <= 4
    ensures (c as int == 0) <==> 0 in r
  {
    var n := c as int;
    if n < 0x80 then [n]
    else if n < 0x800 then [0xC0 + n / 64, 0x80 + n % 64]
    else if n < 0x10000 then [0xE0 + n / 4096, 0x80 + (n / 64) % 64, 0x80 + n % 64]
    else [0xF0 + n / 262144, 0x80 + (n / 4096) % 64, 0x80 + (n / 64) % 64, 0x80 + n % 64]
  }

  /** The UTF-8 encoding of a string. */
  function Utf8(s: string): (r: seq<Byte>)
    ensures |s| <= |r| <= 4 * |s|
  {
    if s == [] then [] else CharBytes(s[0]) + Utf8(s[1..])
  }

  /** The length of a character's encoding, read off its lead byte. */
  function LeadLength(b: Byte): nat
  {
    if b < 0x80 then 1 else if b < 0xE0 then 2 else if b < 0xF0 then 3 else 4
  }

  /** The character a well-formed encoding of the lead byte's length
      stands for. */
  function Decoded(b: seq<Byte>): int
    requires |b| >= 1 && |b| >= LeadLength(b[0])
  {
    match LeadLength(b[0])
    case 1 => b[0] as int
    case 2 => (b[0] as int - 0xC0) * 64 + (b[1] as int - 0x80)
    case 3 => (b[0] as int - 0xE0) * 4096 + (b[1] as int - 0x80) * 64 + (b[2] as int - 0x80)
    case _ => (b[0] as int - 0xF0) * 262144 + (b[1] as int - 0x80) * 4096 + (b[2] as int - 0x80) * 64 + (b[3] as int - 0x80)
  }

  lemma Split64(n: int)
    requires n >= 0
    ensures n == (n / 64) * 64 + n % 64
    ensures n / 4096 == (n / 64) / 64
    ensures n / 262144 == (n / 4096) / 64
  {
  }

  /** The lead byte tells the length of the encoding, and the encoding
      gives the character back. */
  lemma CharBytesDecode(c: char)
    ensures LeadLength(CharBytes(c)[0]) == |CharBytes(c)|
    ensures Decoded(CharBytes(c)) == c as int
  {
    var n := c as int;
    Split64(n);
    Split64(n / 64);
    Split64(n / 4096);
  }

  /** The encoding of a character cannot be mistaken for that of another,
      nor can it run into what follows it. */
  lemma CharBytesPrefix(c: char, d: char, x: seq<Byte>, y: seq<Byte>)
    requires CharBytes(c) + x == CharBytes(d) + y
    ensures c == d && x == y
  {
    var bc, bd := CharBytes(c), CharBytes(d);
    CharBytesDecode(c);
    CharBytesDecode(d);
    assert bc[0] == (bc + x)[0] == bd[0];
    var k := |bc|;
    assert |bd| == k;
    assert bc == (bc + x)[..k] == bd;
    assert x == (bc + x)[k..] == y;
    assert c as int == d as int;
  }

  /** Different strings have different encodings. */
  lemma {:induction false} Utf8Injective(s: string, t: string)
    requires Utf8(s) == Utf8(t)
    ensures s == t
  {
    if s != [] && t != [] {
      CharBytesPrefix(s[0], t[0], Utf8(s[1..]), Utf8(t[1..]));
      Utf8Injective(s[1..], t[1..]);
    }
  }

  lemma {:induction false} Utf8Append(s: string, t: string)
    ensures Utf8(s + t) == Utf8(s) + Utf8(t)
  {
    if s != [] {
      assert (s + t)[1..] == s[1..] + t;
      Utf8Append(s[1..], t);
    } else {
      assert s + t == t;
    }
  }

  /** Text without NUL characters encodes without zero bytes. */
  lemma {:induction false} NoZeroByte(s: string)
    requires forall i :: 0 <= i < |s| ==> s[i] != '\0'
    ensures 0 !in Utf8(s)
  {
    if s != [] {
      NoZeroByte(s[1..]);
    }
  }
}

// JavaScript values as they appear in request bodies and JSON files, with
// the operations of the language that the content API relies on: truthiness,
// property access, strict equality, object spread, JSON.stringify followed by
// JSON.parse, parseInt and the number conversion of the validation library.
module JsValue {
  import opened Wrappers
  import opened Strings
  import opened Unicode

  /** A JavaScript value. Numbers are exact reals (no NaN, no rounding);
      objects are maps from property name to value (property order is not
      kept). `Func` and `BigInt` never come out of JSON.parse; they exist so
      that the serialisation failures of the persistence layer can be stated. */
  datatype Value =
    | Null
    | Bool(b: bool)
    | Num(n: real)
    | Str(s: string)
    | Arr(items: seq<Value>)
    | Obj(fields: map<string, Value>)
    | Func
    | BigInt(i: int)

  /** `!!v` */
  predicate Truthy(v: Value)
  {
    match v
    case Null => false
    case Bool(b) => b
    case Num(n) => n != 0.0
    case Str(s) => s != ""
    case BigInt(i) => i != 0
    case _ => true
  }

  /** A value JSON.parse can produce. */
  predicate IsJson(v: Value)
  {
    match v
    case Arr(s) => forall i :: 0 <= i < |s| ==> IsJson(s[i])
    case Obj(m) => forall k :: k in m ==> IsJson(m[k])
    case Func => false
    case BigInt(_) => false
    case _ => true
  }

  predicate HasBigInt(v: Value)
  {
    match v
    case BigInt(_) => true
    case Arr(s) => exists i :: 0 <= i < |s| && HasBigInt(s[i])
    case Obj(m) => exists k :: k in m && HasBigInt(m[k])
    case _ => false
  }

  /** What JSON.stringify keeps of a value: function-valued properties are
      dropped and functions inside arrays become null. */
  function Normalize(v: Value): (r: Value)
    ensures !HasBigInt(v) && !v.Func? ==> IsJson(r)
    ensures IsJson(v) ==> r == v
  {
    match v
    case Arr(s) =>
      var t := seq(|s|, i requires 0 <= i < |s| => if s[i].Func? then Null else Normalize(s[i]));
      if IsJson(v) then
        assert forall i | 0 <= i < |s| :: IsJson(s[i]);
        assert forall i | 0 <= i < |s| :: Normalize(s[i]) == s[i];
        assert forall i | 0 <= i < |s| :: t[i] == s[i];
        assert t == s;
        Arr(t)
      else
      Arr(t)
    case Obj(m) =>
      var n := map k | k in m && !m[k].Func? :: Normalize(m[k]);
      if IsJson(v) then
        assert forall k | k in m :: IsJson(m[k]);
        assert forall k | k in m :: Normalize(m[k]) == m[k];
        assert forall k | k in m :: k in n && n[k] == m[k];
        assert n == m;
        Obj(n)
      else
      Obj(n)
    case _ => v
  }

  /** `JSON.parse(JSON.stringify(v))`; `None` where JSON.stringify throws a
      TypeError (a BigInt anywhere) or yields `undefined` (a function at the
      top level, which fs.writeFile then refuses with a TypeError). */
  function Stringify(v: Value): (r: Option<Value>)
    ensures r.None? <==> v.Func? || HasBigInt(v)
    ensures r.Some? ==> IsJson(r.value)
  {
    if v.Func? || HasBigInt(v) then None else Some(Normalize(v))
  }

  /** Serialising a parsed JSON value and parsing it back gives it back. */
  lemma StringifyOfJson(v: Value)
    requires IsJson(v)
    ensures Stringify(v) == Some(v)
  {
    if HasBigInt(v) { NoBigIntInJson(v); }
  }

  lemma {:induction false} NoBigIntInJson(v: Value)
    requires IsJson(v)
    ensures !HasBigInt(v)
  {
    match v
    case Arr(s) =>
      forall i | 0 <= i < |s| ensures !HasBigInt(s[i]) { NoBigIntInJson(s[i]); }
    case Obj(m) =>
      forall k | k in m ensures !HasBigInt(m[k]) { NoBigIntInJson(m[k]); }
    case _ =>
  }

  /** `v[k]` for an own property of an object; `None` is `undefined`.
      Properties of arrays and strings are not modelled. */
  function Prop(v: Value, k: string): (r: Option<Value>)
    ensures r.Some? <==> v.Obj? && k in v.fields
  {
    if v.Obj? && k in v.fields then Some(v.fields[k]) else None
  }

  /** `String(v)` for the values the model can write out: `undefined`,
      `null`, booleans, integral numbers, strings, objects and arrays of
      such values; `None` for a fractional number or a function. */
  function ValueText(v: Option<Value>): Option<string>
    decreases v
  {
    match v
    case None => Some("undefined")
    case Some(x) => Text(x)
  }

  function Text(x: Value): Option<string>
    decreases x
  {
    match x
    case Null => Some("null")
    case Bool(b) => Some(if b then "true" else "false")
    case Num(n) => if n.Floor as real == n then Some(IntText(n.Floor)) else None
    case Str(s) => Some(s)
    case BigInt(i) => Some(IntText(i))
    case Obj(_) => Some("[object Object]")
    case Func => None
    case Arr(items) => ElementsText(items)
  }

  /** `items.join(',')`, where `null` elements are written as nothing. */
  function ElementsText(items: seq<Value>): Option<string>
    decreases items
  {
    if items == [] then Some("")
    else
      var head := if items[0].Null? then Some("") else Text(items[0]);
      if head.None? then None
      else if |items| == 1 then head
      else match ElementsText(items[1..])
        case None => None
        case Some(rest) => Some(head.value + "," + rest)
  }

  /** `Number(v)`, the conversion that `<=`, `>=` and `%` apply to an
      operand, with `None` for NaN: `undefined` is NaN and `null` is 0, a
      boolean is 0 or 1, a string is read as a decimal number (the blank
      text is 0), an array is read through its text, and an object or a
      function is NaN. A BigInt is taken at its value, as a comparison with
      a number does. */
  function ToNumber(v: Option<Value>): (r: Option<real>)
    ensures v.None? ==> r.None?
    ensures v.Some? && v.value.Num? ==> r == Some(v.value.n)
    ensures v == Some(Null) ==> r == Some(0.0)
    ensures v.Some? && (v.value.Obj? || v.value.Func?) ==> r.None?
  {
    match v
    case None => None
    case Some(x) =>
      match x
      case Null => Some(0.0)
      case Bool(b) => Some(if b then 1.0 else 0.0)
      case Num(n) => Some(n)
      case BigInt(i) => Some(i as real)
      case Str(s) => StringNumber(s)
      case Arr(items) => if ElementsText(items).Some? then StringNumber(ElementsText(items).value) else None
      case Obj(_) => None
      case Func => None
  }

  /** A string as a number: blank is 0, otherwise its decimal reading. */
  function StringNumber(s: string): (r: Option<real>)
    ensures Trim(s) == "" ==> r == Some(0.0)
    ensures Trim(s) != "" ==> r == DecimalValue(s)
  {
    if Trim(s) == "" then Some(0.0) else DecimalValue(s)
  }

  /** `a === b` where `None` is `undefined`. Distinct objects, arrays and
      functions are never strictly equal; the model has no aliasing, so two
      such values are never the same reference. */
  predicate StrictEquals(a: Option<Value>, b: Option<Value>)
  {
    match (a, b)
    case (None, None) => true
    case (Some(x), Some(y)) =>
      (x.Null? && y.Null?) || (x.Bool? && y.Bool? && x.b == y.b) || (x.Num? && y.Num? && x.n == y.n)
      || (x.Str? && y.Str? && x.s == y.s) || (x.BigInt? && y.BigInt? && x.i == y.i)
    case _ => false
  }

  lemma StrictEqualsPrimitive(a: Value)
    requires !a.Arr? && !a.Obj? && !a.Func?
    ensures StrictEquals(Some(a), Some(a))
  {
  }

  /** The own enumerable properties `{...v}` copies. */
  function Spread(v: Value): (r: map<string, Value>)
    ensures v.Obj? ==> r == v.fields
    ensures !v.Obj? && !v.Arr? && !v.Str? ==> r == map[]
  {
    match v
    case Obj(m) => m
    case Arr(s) => IndexMap(s)
    case Str(s) => IndexMap(seq(|s|, i requires 0 <= i < |s| => Str([s[i]])))
    case _ => map[]
  }

  /** An array as the object with its indexes as keys. */
  function IndexMap(s: seq<Value>): (r: map<string, Value>)
    ensures forall i :: 0 <= i < |s| ==> NatText(i) in r && r[NatText(i)] == s[i]
    ensures forall k :: k in r ==> exists i :: 0 <= i < |s| && k == NatText(i)
  {
    NatTextInjective();
    map i | 0 <= i < |s| :: NatText(i) := s[i]
  }

  /** `.length` of a string, in UTF-16 code units, or of an array;
      `undefined` otherwise. */
  function Length(v: Value): (r: Option<nat>)
    ensures v.Str? ==> r == Some(Utf16Length(v.s)) && |v.s| <= r.value
    ensures v.Arr? ==> r == Some(|v.items|)
    ensures !v.Str? && !v.Arr? ==> r.None?
  {
    match v
    case Str(s) => Some(Utf16Length(s))
    case Arr(a) => Some(|a|)
    case _ => None
  }

  predicate IsIntegral(r: real)
  {
    r.Floor as real == r
  }

  predicate IsHexDigit(c: char)
  {
    IsDigit(c) || 'a' <= c <= 'f' || 'A' <= c <= 'F'
  }

  function HexValue(c: char): (d: nat)
    requires IsHexDigit(c)
    ensures d < 16
    ensures IsDigit(c) ==> d == DigitValue(c)
  {
    if IsDigit(c) then DigitValue(c) else if 'a' <= c <= 'f' then c as int - 'a' as int + 10 else c as int - 'A' as int + 10
  }

  /** The longest prefix of `s` made of digits of the given radix. */
  function DigitRun(s: string, hex: bool): (r: nat)
    ensures r <= |s|
    ensures forall i :: 0 <= i < r ==> if hex then IsHexDigit(s[i]) else IsDigit(s[i])
    ensures r < |s| ==> !(if hex then IsHexDigit(s[r]) else IsDigit(s[r]))
  {
    if s != [] && (if hex then IsHexDigit(s[0]) else IsDigit(s[0])) then 1 + DigitRun(s[1..], hex) else 0
  }

  function RadixValue(s: string, hex: bool): nat
    requires forall i :: 0 <= i < |s| ==> if hex then IsHexDigit(s[i]) else IsDigit(s[i])
  {
    if s == [] then 0
    else RadixValue(s[..|s| - 1], hex) * (if hex then 16 else 10) + (if hex then HexValue(s[|s| - 1]) else DigitValue(s[|s| - 1]))
  }

  /** parseInt(s) with no radix: leading whitespace skipped, an optional
      sign, a `0x`/`0X` prefix selecting hexadecimal, then the longest run
      of digits; `None` (NaN) when that run is empty. */
  function ParseInt(s: string): Option<int>
  {
    var t := TrimStart(s);
    if t != [] && t[0] == '-' then
      match ParseMagnitude(t[1..])
      case None => None
      case Some(m) => Some(-(m as int))
    else if t != [] && t[0] == '+' then ParseMagnitude(t[1..])
    else ParseMagnitude(t)
  }

  function ParseMagnitude(u: string): Option<nat>
  {
    if |u| >= 2 && u[0] == '0' && (u[1] == 'x' || u[1] == 'X') then RunValue(u[2..], true)
    else RunValue(u, false)
  }

  function RunValue(w: string, hex: bool): Option<nat>
  {
    var n := DigitRun(w, hex);
    if n == 0 then None else Some(RadixValue(w[..n], hex))
  }

  /** The number conversion the validation library applies to a string
      where a number is expected: optional surrounding whitespace, an
      optional sign, decimal digits with an optional fraction; at least one
      digit. Exponent notation is not modelled. */
  function DecimalValue(s: string): Option<real>
  {
    var t := Trim(s);
    if t != [] && t[0] == '-' then
      match UnsignedDecimal(t[1..])
      case None => None
      case Some(x) => Some(-x)
    else if t != [] && t[0] == '+' then UnsignedDecimal(t[1..])
    else UnsignedDecimal(t)
  }

  function UnsignedDecimal(u: string): Option<real>
  {
    var n := DigitRun(u, false);
    if n == |u| then
      if n == 0 then None else Some(DigitsValue(u) as real)
    else if u[n] != '.' then None
    else
      var rest := u[n + 1..];
      var f := DigitRun(rest, false);
      if f != |rest| || (n == 0 && f == 0) then None
      else Some(DigitsValue(u[..n]) as real + DigitsValue(rest) as real / Pow10(f) as real)
  }

  function Pow10(k: nat): (r: nat)
    ensures r >= 1
  {
    if k == 0 then 1 else 10 * Pow10(k - 1)
  }
}


// The subset of the Joi validation library the content API uses, as an
// interpreter: a schema describes strings, numbers, booleans, objects with
// named keys and arrays; validating a value converts it (trimming strings,
// reading numbers and booleans out of strings, filling defaults, dropping
// unknown keys) and collects one detail per violated rule.
module Schema {
  import opened Wrappers
  import opened Strings
  import opened JsValue
  import opened Unicode
  import Patterns

  datatype NamedPattern = ImagePathPattern | FileNamePattern | PhonePattern

  datatype StringRule =
    | MinLength(min: nat)
    | MaxLength(max: nat)
    | Matches(pattern: NamedPattern)
    | EmailAddress
    | UriReference

  datatype NumberRule =
    | Integer
    | Positive
    | AtLeast(limit: real)
    | AtMost(limit: real)

  /** How an object key that is absent from the input is treated. */
  datatype Presence =
    | Optional
    | Required
    | Default(value: Value)
    | DefaultFromKeys   // `.default()` on an object: the object its keys' defaults build

  /** The object's unknown-key setting: not set (then the validation options
      decide), explicitly forbidden (`.unknown(false)`) or explicitly allowed
      (`.unknown(true)`). */
  datatype Unknown = Unset | Forbidden | Allowed

  datatype Schema =
    | Text(trim: bool, allowEmpty: bool, only: seq<string>, rules: seq<StringRule>)
    | Number(numberRules: seq<NumberRule>)
    | Boolean
    | AnyObject
    | Keys(fields: seq<Field>, unknown: Unknown)
    | List(items: Schema, max: Option<nat>)

  datatype Field = Field(key: string, schema: Schema, presence: Presence)

  datatype Segment = Key(name: string) | Index(i: nat)

  /** The error kinds the library reports, with the context its message uses. */
  datatype Kind =
    | AnyRequired
    | AnyOnly(valids: seq<string>)
    | ObjectUnknown
    | ObjectBase
    | StringBase
    | StringEmpty
    | StringMin(min: nat)
    | StringMax(max: nat)
    | StringPattern(pattern: NamedPattern)
    | StringEmail
    | StringUri
    | NumberBase
    | NumberInteger
    | NumberPositive
    | NumberMin(limit: real)
    | NumberMax(limit: real)
    | BooleanBase
    | ArrayBase
    | ArrayMax(maxItems: nat)

  /** One entry of the error report: where, what, and the offending value
      (`None` where the value is missing). */
  datatype Detail = Detail(path: seq<Segment>, kind: Kind, value: Option<Value>)

  /** The converted value and every violation found. */
  datatype Checked = Checked(value: Value, errors: seq<Detail>)

  datatype FieldOutcome = FieldOutcome(entry: Option<Value>, errors: seq<Detail>)

  datatype FieldsOutcome = FieldsOutcome(entries: map<string, Value>, errors: seq<Detail>)

  /** The options of a call to `validate`. */
  datatype Options = Options(abortEarly: bool, stripUnknown: bool)

  /** The library's defaults: stop at the first error, keep unknown keys
      (and so report them). */
  const DefaultOptions := Options(true, false)

  predicate PatternHolds(p: NamedPattern, s: string)
  {
    match p
    case ImagePathPattern => Patterns.ImagePath(s)
    case FileNamePattern => Patterns.FileName(s)
    case PhonePattern => Patterns.Phone(s)
  }

  predicate StringRuleHolds(r: StringRule, s: string)
  {
    match r
    case MinLength(n) => Utf16Length(s) >= n
    case MaxLength(n) => Utf16Length(s) <= n
    case Matches(p) => PatternHolds(p, s)
    case EmailAddress => Patterns.Email(s)
    case UriReference => Patterns.Uri(s)
  }

  function StringRuleKind(r: StringRule): Kind
  {
    match r
    case MinLength(n) => StringMin(n)
    case MaxLength(n) => StringMax(n)
    case Matches(p) => StringPattern(p)
    case EmailAddress => StringEmail
    case UriReference => StringUri
  }

  predicate NumberRuleHolds(r: NumberRule, x: real)
  {
    match r
    case Integer => IsIntegral(x)
    case Positive => x > 0.0
    case AtLeast(l) => x >= l
    case AtMost(l) => x <= l
  }

  function NumberRuleKind(r: NumberRule): Kind
  {
    match r
    case Integer => NumberInteger
    case Positive => NumberPositive
    case AtLeast(l) => NumberMin(l)
    case AtMost(l) => NumberMax(l)
  }

  /** One detail per string rule `s` violates, in rule order. */
  function StringRuleErrors(rules: seq<StringRule>, s: string, path: seq<Segment>, v: Value): (r: seq<Detail>)
    ensures r == [] <==> forall i :: 0 <= i < |rules| ==> StringRuleHolds(rules[i], s)
    ensures forall i :: 0 <= i < |rules| && !StringRuleHolds(rules[i], s) ==>
              Detail(path, StringRuleKind(rules[i]), Some(v)) in r
  {
    if rules == [] then []
    else
      var rest := StringRuleErrors(rules[1..], s, path, v);
      assert forall i :: 1 <= i < |rules| ==> rules[i] == rules[1..][i - 1];
      if StringRuleHolds(rules[0], s) then rest else [Detail(path, StringRuleKind(rules[0]), Some(v))] + rest
  }

  /** One detail per number rule `x` violates, in rule order. */
  function NumberRuleErrors(rules: seq<NumberRule>, x: real, path: seq<Segment>): (r: seq<Detail>)
    ensures r == [] <==> forall i :: 0 <= i < |rules| ==> NumberRuleHolds(rules[i], x)
    ensures forall i :: 0 <= i < |rules| && !NumberRuleHolds(rules[i], x) ==>
              Detail(path, NumberRuleKind(rules[i]), Some(Num(x))) in r
  {
    if rules == [] then []
    else
      var rest := NumberRuleErrors(rules[1..], x, path);
      assert forall i :: 1 <= i < |rules| ==> rules[i] == rules[1..][i - 1];
      if NumberRuleHolds(rules[0], x) then rest else [Detail(path, NumberRuleKind(rules[0]), Some(Num(x)))] + rest
  }

  /** A string schema: `trim()` applies first; an allowed empty string and a
      listed value are accepted without further rules. Otherwise a value
      outside the list is reported, and then the type check still runs: a
      missing string or an empty string is reported (and ends the checks),
      a non-empty string is held to each rule. */
  function WalkText(s: Schema, v: Value, path: seq<Segment>): (r: Checked)
    requires s.Text?
  {
    if v.Str? then
      var x := if s.trim then Trim(v.s) else v.s;
      if x == "" && s.allowEmpty then Checked(Str(x), [])
      else if s.only != [] && x in s.only then Checked(Str(x), [])
      else
        var unlisted := NotListed(s, path, Str(x));
        if x == "" then Checked(Str(x), unlisted + [Detail(path, StringEmpty, Some(Str(x)))])
        else Checked(Str(x), unlisted + StringRuleErrors(s.rules, x, path, Str(x)))
    else Checked(v, NotListed(s, path, v) + [Detail(path, StringBase, Some(v))])
  }

  /** The `any.only` detail of a value that is not one of the listed ones;
      nothing when the schema lists no values. */
  function NotListed(s: Schema, path: seq<Segment>, v: Value): seq<Detail>
    requires s.Text?
  {
    if s.only != [] then [Detail(path, AnyOnly(s.only), Some(v))] else []
  }

  /** A number schema: a string holding a decimal number is converted first. */
  function WalkNumber(rules: seq<NumberRule>, v: Value, path: seq<Segment>): (r: Checked)
  {
    var w := if v.Str? && DecimalValue(v.s).Some? then Num(DecimalValue(v.s).value) else v;
    if w.Num? then Checked(w, NumberRuleErrors(rules, w.n, path))
    else Checked(w, [Detail(path, NumberBase, Some(w))])
  }

  /** A boolean schema: the strings `true` and `false` (any case) convert. */
  function WalkBoolean(v: Value, path: seq<Segment>): (r: Checked)
  {
    if v.Bool? then Checked(v, [])
    else if v.Str? && Lower(v.s) == "true" then Checked(Bool(true), [])
    else if v.Str? && Lower(v.s) == "false" then Checked(Bool(false), [])
    else Checked(v, [Detail(path, BooleanBase, Some(v))])
  }

  predicate IsFieldKey(fields: seq<Field>, key: string)
  {
    exists i | 0 <= i < |fields| :: fields[i].key == key
  }

  /** The keys of an input object the schema does not name, sorted. */
  function UnknownKeys(fields: seq<Field>, m: map<string, Value>): (r: seq<string>)
    ensures forall k :: k in r <==> k in m && !IsFieldKey(fields, k)
  {
    SortedKeys(set k | k in m && !IsFieldKey(fields, k))
  }

  function UnknownDetails(keys: seq<string>, m: map<string, Value>, path: seq<Segment>): (r: seq<Detail>)
    requires forall k :: k in keys ==> k in m
    ensures |r| == |keys|
    ensures forall i :: 0 <= i < |keys| ==> r[i] == Detail(path + [Key(keys[i])], ObjectUnknown, Some(m[keys[i]]))
  {
    if keys == [] then []
    else [Detail(path + [Key(keys[0])], ObjectUnknown, Some(m[keys[0]]))] + UnknownDetails(keys[1..], m, path)
  }

  function Restrict(m: map<string, Value>, keys: seq<string>): (r: map<string, Value>)
    ensures forall k :: k in r <==> k in m && k in keys
    ensures forall k :: k in r ==> r[k] == m[k]
  {
    map k | k in m && k in keys :: m[k]
  }

  /** Validate `v` against `s`; `strip` is the stripUnknown option, which
      drops unknown keys of objects whose unknown setting is not set. */
  function Walk(s: Schema, v: Value, path: seq<Segment>, strip: bool): (r: Checked)
    decreases s, 3
  {
    match s
    case Text(_, _, _, _) => WalkText(s, v, path)
    case Number(rules) => WalkNumber(rules, v, path)
    case Boolean => WalkBoolean(v, path)
    case AnyObject => if v.Obj? then Checked(v, []) else Checked(v, [Detail(path, ObjectBase, Some(v))])
    case Keys(_, _) => if v.Obj? then WalkKeys(s, v.fields, path, strip) else Checked(v, [Detail(path, ObjectBase, Some(v))])
    case List(_, _) => if v.Arr? then WalkList(s, v.items, path, strip) else Checked(v, [Detail(path, ArrayBase, Some(v))])
  }

  /** An object: its keys in schema order, then its unknown keys. */
  function WalkKeys(s: Schema, m: map<string, Value>, path: seq<Segment>, strip: bool): (r: Checked)
    requires s.Keys?
    decreases s, 2
  {
    var known := Gather(s.fields, FieldOutcomes(s, m, path, strip), 0);
    Checked(Obj(known.entries + KeptUnknown(s, m, strip)), known.errors + UnknownReport(s, m, path, strip))
  }

  /** The unknown keys the result keeps: all of them unless they are stripped. */
  function KeptUnknown(s: Schema, m: map<string, Value>, strip: bool): map<string, Value>
    requires s.Keys?
  {
    if s.unknown == Unset && strip then map[] else Restrict(m, UnknownKeys(s.fields, m))
  }

  /** The unknown keys reported: none where they are allowed or stripped. */
  function UnknownReport(s: Schema, m: map<string, Value>, path: seq<Segment>, strip: bool): seq<Detail>
    requires s.Keys?
  {
    if s.unknown == Allowed || (s.unknown == Unset && strip) then []
    else UnknownDetails(UnknownKeys(s.fields, m), m, path)
  }

  /** The outcome of every key the schema names, in schema order. */
  function FieldOutcomes(s: Schema, m: map<string, Value>, path: seq<Segment>, strip: bool): (r: seq<FieldOutcome>)
    requires s.Keys?
    ensures |r| == |s.fields|
    ensures forall i :: 0 <= i < |s.fields| ==> r[i] == WalkField(s, i, m, path, strip)
    decreases s, 1
  {
    seq(|s.fields|, i requires 0 <= i < |s.fields| => WalkField(s, i, m, path, strip))
  }

  /** One key: validated when present, otherwise required, optional or
      defaulted. */
  function WalkField(s: Schema, k: nat, m: map<string, Value>, path: seq<Segment>, strip: bool): (r: FieldOutcome)
    requires s.Keys? && k < |s.fields|
    decreases s, 0
  {
    var f := s.fields[k];
    var p := path + [Key(f.key)];
    if f.key in m then
      var c := Walk(f.schema, m[f.key], p, strip);
      FieldOutcome(Some(c.value), c.errors)
    else
      match f.presence
      case Required => FieldOutcome(None, [Detail(p, AnyRequired, None)])
      case Optional => FieldOutcome(None, [])
      case Default(d) => FieldOutcome(Some(d), [])
      case DefaultFromKeys =>
        var c := Walk(f.schema, Obj(map[]), p, strip);
        FieldOutcome(Some(c.value), c.errors)
  }

  /** The entries and errors of the keys `fields[k..]`, in order. */
  function Gather(fields: seq<Field>, outcomes: seq<FieldOutcome>, k: nat): (r: FieldsOutcome)
    requires |outcomes| == |fields| && k <= |fields|
    decreases |fields| - k
  {
    if k == |fields| then FieldsOutcome(map[], [])
    else
      var rest := Gather(fields, outcomes, k + 1);
      var f := outcomes[k];
      FieldsOutcome(if f.entry.Some? then rest.entries[fields[k].key := f.entry.value] else rest.entries, f.errors + rest.errors)
  }

  /** An array: every element against the item schema, then the length. */
  function WalkList(s: Schema, items: seq<Value>, path: seq<Segment>, strip: bool): (r: Checked)
    requires s.List?
    decreases s, 2
  {
    var outcomes := ItemOutcomes(s, items, path, strip);
    var tooMany := if s.max.Some? && |items| > s.max.value then [Detail(path, ArrayMax(s.max.value), Some(Arr(items)))] else [];
    Checked(Arr(seq(|outcomes|, i requires 0 <= i < |outcomes| => outcomes[i].value)), AllErrors(outcomes) + tooMany)
  }

  /** The outcome of every element against the item schema. */
  function ItemOutcomes(s: Schema, items: seq<Value>, path: seq<Segment>, strip: bool): (r: seq<Checked>)
    requires s.List?
    ensures |r| == |items|
    ensures forall i :: 0 <= i < |items| ==> r[i] == Walk(s.items, items[i], path + [Index(i)], strip)
    decreases s, 1
  {
    seq(|items|, i requires 0 <= i < |items| => Walk(s.items, items[i], path + [Index(i)], strip))
  }

  function AllErrors(outcomes: seq<Checked>): (r: seq<Detail>)
    ensures forall i, d :: 0 <= i < |outcomes| && d in outcomes[i].errors ==> d in r
    ensures r == [] <==> forall i :: 0 <= i < |outcomes| ==> outcomes[i].errors == []
  {
    if outcomes == [] then []
    else
      var rest := AllErrors(outcomes[1..]);
      assert forall i :: 1 <= i < |outcomes| ==> outcomes[i] == outcomes[1..][i - 1];
      outcomes[0].errors + rest
  }

  /** `schema.validate(v, options)`: with abortEarly only the first detail
      is reported. */
  function Validate(s: Schema, v: Value, opts: Options): (r: Checked)
    ensures r.value == Walk(s, v, [], opts.stripUnknown).value
    ensures r.errors == [] <==> Walk(s, v, [], opts.stripUnknown).errors == []
    ensures forall d :: d in r.errors ==> d in Walk(s, v, [], opts.stripUnknown).errors
    ensures opts.abortEarly ==> |r.errors| <= 1
    ensures !opts.abortEarly ==> r.errors == Walk(s, v, [], opts.stripUnknown).errors
  {
    var w := Walk(s, v, [], opts.stripUnknown);
    if opts.abortEarly && |w.errors| > 1 then Checked(w.value, w.errors[..1]) else w
  }

  // ---- Error text ----

  function SegmentText(g: Segment): string
  {
    match g
    case Key(n) => n
    case Index(i) => NatText(i)
  }

  /** `path.join('.')`, the `field` of a reported detail. */
  function FieldName(path: seq<Segment>): string
  {
    if path == [] then ""
    else if |path| == 1 then SegmentText(path[0])
    else SegmentText(path[0]) + "." + FieldName(path[1..])
  }

  /** The label the library puts in messages: keys joined by `.`, indexes
      as `[i]`, `value` for the root. */
  function Label(path: seq<Segment>): string
  {
    var l := LabelFrom("", path);
    if l == "" then "value" else l
  }

  function LabelFrom(acc: string, path: seq<Segment>): string
    decreases |path|
  {
    if path == [] then acc
    else match path[0]
      case Key(n) => LabelFrom(if acc == "" then n else acc + "." + n, path[1..])
      case Index(i) => LabelFrom(acc + "[" + NatText(i) + "]", path[1..])
  }

  /** Decimal text of a number, as String(x) writes it for numbers with at
      most twenty fraction digits. */
  function NumberText(x: real): string
  {
    if x < 0.0 then "-" + UnsignedNumberText(-x) else UnsignedNumberText(x)
  }

  function UnsignedNumberText(x: real): string
    requires x >= 0.0
  {
    var whole := x.Floor;
    var frac := FractionDigits(x - whole as real, 20);
    NatText(whole) + (if frac == "" then "" else "." + frac)
  }

  function FractionDigits(f: real, fuel: nat): string
    requires 0.0 <= f < 1.0
    decreases fuel
  {
    if f == 0.0 || fuel == 0 then ""
    else
      var d := (f * 10.0).Floor;
      [DigitChar(d)] + FractionDigits(f * 10.0 - d as real, fuel - 1)
  }

  function PatternSource(p: NamedPattern): string
  {
    match p
    case ImagePathPattern => Patterns.ImagePathSource
    case FileNamePattern => Patterns.FileNameSource
    case PhonePattern => Patterns.PhoneSource
  }

  function KindText(k: Kind, value: Option<Value>): string
  {
    match k
    case AnyRequired => "is required"
    case AnyOnly(valids) => "must be one of [" + Join(valids, ", ") + "]"
    case ObjectUnknown => "is not allowed"
    case ObjectBase => "must be of type object"
    case StringBase => "must be a string"
    case StringEmpty => "is not allowed to be empty"
    case StringMin(n) => "length must be at least " + NatText(n) + " characters long"
    case StringMax(n) => "length must be less than or equal to " + NatText(n) + " characters long"
    case StringPattern(p) =>
      "with value \"" + (if value.Some? && value.value.Str? then value.value.s else "") + "\" fails to match the required pattern: " + PatternSource(p)
    case StringEmail => "must be a valid email"
    case StringUri => "must be a valid uri"
    case NumberBase => "must be a number"
    case NumberInteger => "must be an integer"
    case NumberPositive => "must be a positive number"
    case NumberMin(l) => "must be greater than or equal to " + NumberText(l)
    case NumberMax(l) => "must be less than or equal to " + NumberText(l)
    case BooleanBase => "must be a boolean"
    case ArrayBase => "must be an array"
    case ArrayMax(n) => "must contain less than or equal to " + NatText(n) + " items"
  }

  /** The message of a detail: the quoted label followed by the kind's text. */
  function Message(d: Detail): (r: string)
    ensures StartsWith(r, "\"" + Label(d.path) + "\" ")
  {
    var head := "\"" + Label(d.path) + "\" ";
    var r := head + KindText(d.kind, d.value);
    assert r[..|head|] == head;
    r
  }
}

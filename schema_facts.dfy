// What the validation interpreter guarantees: a value that passes conforms
// to its schema, a conforming value passes unchanged (so validation is
// idempotent), and each kind of violation is reported where it occurs.
module SchemaFacts {
  import opened Wrappers
  import opened Strings
  import opened JsValue
  import opened Schema

  /** The strings a string schema accepts once converted. */
  ghost predicate TextConforms(s: Schema, x: string)
    requires s.Text?
  {
    (s.trim ==> Trimmed(x))
    && ((x == "" && s.allowEmpty)
        || (s.only != [] && x in s.only)
        || (s.only == [] && x != "" && forall i :: 0 <= i < |s.rules| ==> StringRuleHolds(s.rules[i], x)))
  }

  /** The values a schema describes, stated directly: the reference the
      interpreter is proved against. */
  ghost predicate Conforms(s: Schema, v: Value)
    decreases s, 1
  {
    match s
    case Text(_, _, _, _) => v.Str? && TextConforms(s, v.s)
    case Number(rules) => v.Num? && forall i :: 0 <= i < |rules| ==> NumberRuleHolds(rules[i], v.n)
    case Boolean => v.Bool?
    case AnyObject => v.Obj?
    case Keys(_, _) => v.Obj? && KeysConform(s, v.fields)
    case List(_, _) => v.Arr? && ListConforms(s, v.items)
  }

  /** Every named key that is present conforms, every absent one is
      optional, and unknown keys appear only where they are allowed. */
  ghost predicate KeysConform(s: Schema, m: map<string, Value>)
    requires s.Keys?
    decreases s, 0
  {
    (forall i :: 0 <= i < |s.fields| && s.fields[i].key in m ==> Conforms(s.fields[i].schema, m[s.fields[i].key]))
    && (forall i :: 0 <= i < |s.fields| && s.fields[i].key !in m ==> s.fields[i].presence == Optional)
    && (s.unknown != Allowed ==> forall k :: k in m ==> IsFieldKey(s.fields, k))
  }

  /** Every element conforms, and there are no more than the maximum. */
  ghost predicate ListConforms(s: Schema, items: seq<Value>)
    requires s.List?
    decreases s, 0
  {
    (forall i :: 0 <= i < |items| ==> Conforms(s.items, items[i]))
    && (s.max.Some? ==> |items| <= s.max.value)
  }

  /** No key is named twice. */
  predicate DistinctKeys(fields: seq<Field>)
  {
    forall i, j :: 0 <= i < j < |fields| ==> fields[i].key != fields[j].key
  }

  /** Distinct keys everywhere, and every constant default conforms. */
  ghost predicate WellFormed(s: Schema)
    decreases s
  {
    match s
    case Keys(fields, _) =>
      DistinctKeys(fields)
      && (forall i :: 0 <= i < |fields| ==> WellFormed(fields[i].schema))
      && (forall i :: 0 <= i < |fields| && fields[i].presence.Default? ==> Conforms(fields[i].schema, fields[i].presence.value))
    case List(items, _) => WellFormed(items)
    case _ => true
  }

  predicate EntryAgrees(entries: map<string, Value>, key: string, e: Option<Value>)
  {
    if e.Some? then key in entries && entries[key] == e.value else key !in entries
  }

  // ---- Gathering the outcomes of the named keys ----

  /** What gathering the per-key outcomes yields, for distinct keys. */
  lemma {:induction false} GatherFacts(fields: seq<Field>, outcomes: seq<FieldOutcome>, k: nat)
    requires |outcomes| == |fields| && k <= |fields|
    requires forall i, j :: k <= i < j < |fields| ==> fields[i].key != fields[j].key
    ensures forall key :: key in Gather(fields, outcomes, k).entries ==>
              exists j :: k <= j < |fields| && fields[j].key == key
    ensures forall j :: k <= j < |fields| ==> EntryAgrees(Gather(fields, outcomes, k).entries, fields[j].key, outcomes[j].entry)
    ensures forall j, d :: k <= j < |fields| && d in outcomes[j].errors ==> d in Gather(fields, outcomes, k).errors
    ensures Gather(fields, outcomes, k).errors == [] <==> forall j :: k <= j < |fields| ==> outcomes[j].errors == []
    decreases |fields| - k
  {
    if k < |fields| {
      GatherFacts(fields, outcomes, k + 1);
    }
  }

  /** Each named key contributes exactly its outcome's entry. */
  lemma GatherEntry(fields: seq<Field>, outcomes: seq<FieldOutcome>, j: nat)
    requires |outcomes| == |fields| && j < |fields| && DistinctKeys(fields)
    ensures EntryAgrees(Gather(fields, outcomes, 0).entries, fields[j].key, outcomes[j].entry)
  {
    GatherFacts(fields, outcomes, 0);
  }

  /** Only named keys are gathered. */
  lemma GatherNamed(fields: seq<Field>, outcomes: seq<FieldOutcome>, key: string)
    requires |outcomes| == |fields| && DistinctKeys(fields)
    requires key in Gather(fields, outcomes, 0).entries
    ensures IsFieldKey(fields, key)
  {
    GatherFacts(fields, outcomes, 0);
  }

  /** Every error of every key is gathered. */
  lemma GatherError(fields: seq<Field>, outcomes: seq<FieldOutcome>, j: nat, d: Detail)
    requires |outcomes| == |fields| && j < |fields| && DistinctKeys(fields)
    requires d in outcomes[j].errors
    ensures d in Gather(fields, outcomes, 0).errors
  {
    GatherFacts(fields, outcomes, 0);
  }

  /** No error is gathered exactly when no key has one. */
  lemma GatherClean(fields: seq<Field>, outcomes: seq<FieldOutcome>)
    requires |outcomes| == |fields| && DistinctKeys(fields)
    ensures Gather(fields, outcomes, 0).errors == [] <==> forall j :: 0 <= j < |fields| ==> outcomes[j].errors == []
  {
    GatherFacts(fields, outcomes, 0);
  }

  /** Kept unknown keys are never named keys. */
  lemma KeptNotNamed(s: Schema, m: map<string, Value>, strip: bool, key: string)
    requires s.Keys? && IsFieldKey(s.fields, key)
    ensures key !in KeptUnknown(s, m, strip)
  {
  }

  /** Where unknown keys are not allowed and none is reported, none is kept. */
  lemma NoneKept(s: Schema, m: map<string, Value>, path: seq<Segment>, strip: bool)
    requires s.Keys? && s.unknown != Allowed
    requires UnknownReport(s, m, path, strip) == []
    ensures KeptUnknown(s, m, strip) == map[]
  {
    if !(s.unknown == Unset && strip) {
      assert |UnknownKeys(s.fields, m)| == 0;
    }
  }

  // ---- Soundness: whatever passes validation conforms to the schema ----

  lemma TextSound(s: Schema, v: Value, path: seq<Segment>)
    requires s.Text?
    requires WalkText(s, v, path).errors == []
    ensures Conforms(s, WalkText(s, v, path).value)
  {
  }

  lemma {:induction false} WalkSound(s: Schema, v: Value, path: seq<Segment>, strip: bool)
    requires WellFormed(s)
    requires Walk(s, v, path, strip).errors == []
    ensures Conforms(s, Walk(s, v, path, strip).value)
    decreases s, 2
  {
    match s
    case Text(_, _, _, _) => TextSound(s, v, path);
    case Number(_) =>
    case Boolean =>
    case AnyObject =>
    case Keys(_, _) => KeysSound(s, v.fields, path, strip);
    case List(_, _) => ListSound(s, v.items, path, strip);
  }

  /** A key whose outcome carries no error: what it contributes conforms,
      and it contributes nothing only when it is optional and absent. */
  lemma {:induction false} FieldSound(s: Schema, i: nat, m: map<string, Value>, path: seq<Segment>, strip: bool)
    requires WellFormed(s) && s.Keys? && i < |s.fields|
    requires WalkField(s, i, m, path, strip).errors == []
    ensures WalkField(s, i, m, path, strip).entry.Some? ==>
              Conforms(s.fields[i].schema, WalkField(s, i, m, path, strip).entry.value)
    ensures WalkField(s, i, m, path, strip).entry.None? ==> s.fields[i].presence == Optional
    decreases s, 0
  {
    var f := s.fields[i];
    assert f in s.fields;
    if f.key in m {
      WalkSound(f.schema, m[f.key], path + [Key(f.key)], strip);
    } else if f.presence.DefaultFromKeys? {
      WalkSound(f.schema, Obj(map[]), path + [Key(f.key)], strip);
    }
  }

  lemma {:induction false} KeysSound(s: Schema, m: map<string, Value>, path: seq<Segment>, strip: bool)
    requires WellFormed(s) && s.Keys?
    requires WalkKeys(s, m, path, strip).errors == []
    ensures Conforms(s, WalkKeys(s, m, path, strip).value)
    decreases s, 1
  {
    var fields := s.fields;
    var outcomes := FieldOutcomes(s, m, path, strip);
    var known := Gather(fields, outcomes, 0);
    var added := KeptUnknown(s, m, strip);
    var out := known.entries + added;
    assert WalkKeys(s, m, path, strip).value == Obj(out);
    assert known.errors == [] && UnknownReport(s, m, path, strip) == [];
    GatherClean(fields, outcomes);
    forall i | 0 <= i < |fields|
      ensures fields[i].key in out ==> Conforms(fields[i].schema, out[fields[i].key])
      ensures fields[i].key !in out ==> fields[i].presence == Optional
    {
      assert IsFieldKey(fields, fields[i].key);
      KeptNotNamed(s, m, strip, fields[i].key);
      assert outcomes[i].errors == [];
      FieldSound(s, i, m, path, strip);
      GatherEntry(fields, outcomes, i);
    }
    if s.unknown != Allowed {
      NoneKept(s, m, path, strip);
      forall k | k in out
        ensures IsFieldKey(fields, k)
      {
        GatherNamed(fields, outcomes, k);
      }
    }
  }

  lemma {:induction false} ListSound(s: Schema, items: seq<Value>, path: seq<Segment>, strip: bool)
    requires WellFormed(s) && s.List?
    requires WalkList(s, items, path, strip).errors == []
    ensures Conforms(s, WalkList(s, items, path, strip).value)
    decreases s, 1
  {
    var outcomes := ItemOutcomes(s, items, path, strip);
    var out := WalkList(s, items, path, strip).value;
    forall i | 0 <= i < |items|
      ensures Conforms(s.items, out.items[i])
    {
      assert outcomes[i].errors == [];
      WalkSound(s.items, items[i], path + [Index(i)], strip);
    }
  }

  // ---- Completeness: a conforming value passes, and comes back unchanged ----

  lemma {:induction false} WalkComplete(s: Schema, v: Value, path: seq<Segment>, strip: bool)
    requires WellFormed(s)
    requires Conforms(s, v)
    ensures Walk(s, v, path, strip) == Checked(v, [])
    decreases s, 3
  {
    match s
    case Text(_, _, _, _) => TrimmedIff(v.s);
    case Number(_) =>
    case Boolean =>
    case AnyObject =>
    case Keys(_, _) => KeysComplete(s, v.fields, path, strip);
    case List(_, _) => ListComplete(s, v.items, path, strip);
  }

  lemma {:induction false} FieldComplete(s: Schema, i: nat, m: map<string, Value>, path: seq<Segment>, strip: bool)
    requires WellFormed(s) && s.Keys? && i < |s.fields|
    requires KeysConform(s, m)
    ensures WalkField(s, i, m, path, strip) ==
              if s.fields[i].key in m then FieldOutcome(Some(m[s.fields[i].key]), []) else FieldOutcome(None, [])
    decreases s, 0
  {
    var f := s.fields[i];
    assert f in s.fields;
    if f.key in m {
      WalkComplete(f.schema, m[f.key], path + [Key(f.key)], strip);
    }
  }

  /** For a conforming object the named keys come back as they were. */
  lemma KnownComplete(s: Schema, m: map<string, Value>, path: seq<Segment>, strip: bool)
    requires WellFormed(s) && s.Keys?
    requires KeysConform(s, m)
    ensures Gather(s.fields, FieldOutcomes(s, m, path, strip), 0).errors == []
    ensures Gather(s.fields, FieldOutcomes(s, m, path, strip), 0).entries == NamedPart(s.fields, m)
    decreases s, 1
  {
    var fields := s.fields;
    var outcomes := FieldOutcomes(s, m, path, strip);
    var known := Gather(fields, outcomes, 0);
    forall i | 0 <= i < |fields|
      ensures outcomes[i] == if fields[i].key in m then FieldOutcome(Some(m[fields[i].key]), []) else FieldOutcome(None, [])
    {
      FieldComplete(s, i, m, path, strip);
    }
    GatherClean(fields, outcomes);
    var named := NamedPart(fields, m);
    forall k | k in known.entries
      ensures k in named && known.entries[k] == named[k]
    {
      GatherNamed(fields, outcomes, k);
      var j :| 0 <= j < |fields| && fields[j].key == k;
      GatherEntry(fields, outcomes, j);
    }
    forall k | k in named
      ensures k in known.entries
    {
      var j :| 0 <= j < |fields| && fields[j].key == k;
      GatherEntry(fields, outcomes, j);
    }
  }

  function NamedPart(fields: seq<Field>, m: map<string, Value>): map<string, Value>
  {
    map k | k in m && IsFieldKey(fields, k) :: m[k]
  }

  /** The named part and the unknown part together make up the object. */
  lemma NamedAndUnknown(fields: seq<Field>, m: map<string, Value>)
    ensures NamedPart(fields, m) + Restrict(m, UnknownKeys(fields, m)) == m
  {
    var a := NamedPart(fields, m);
    var b := Restrict(m, UnknownKeys(fields, m));
    var r := a + b;
    forall k | k in m
      ensures k in r && r[k] == m[k]
    {
      if !IsFieldKey(fields, k) {
        assert k in UnknownKeys(fields, m);
        assert k in b && b[k] == m[k];
      } else {
        assert k in a && a[k] == m[k];
        assert k !in b;
      }
    }
    assert forall k :: k in r ==> k in m;
  }

  /** An object with named keys only has no unknown part. */
  lemma NamedOnly(fields: seq<Field>, m: map<string, Value>)
    requires forall k :: k in m ==> IsFieldKey(fields, k)
    ensures UnknownKeys(fields, m) == []
    ensures NamedPart(fields, m) == m
  {
  }

  lemma {:induction false} KeysComplete(s: Schema, m: map<string, Value>, path: seq<Segment>, strip: bool)
    requires WellFormed(s) && s.Keys?
    requires KeysConform(s, m)
    ensures WalkKeys(s, m, path, strip) == Checked(Obj(m), [])
    decreases s, 2
  {
    KnownComplete(s, m, path, strip);
    var known := Gather(s.fields, FieldOutcomes(s, m, path, strip), 0);
    var kept := KeptUnknown(s, m, strip);
    var report := UnknownReport(s, m, path, strip);
    assert WalkKeys(s, m, path, strip) == Checked(Obj(known.entries + kept), known.errors + report);
    assert known.entries == NamedPart(s.fields, m) && known.errors == [];
    if s.unknown == Allowed {
      NamedAndUnknown(s.fields, m);
      assert report == [];
      assert kept == Restrict(m, UnknownKeys(s.fields, m));
    } else {
      NamedOnly(s.fields, m);
      assert Restrict(m, []) == map[];
      assert kept == map[];
      assert |UnknownDetails([], m, path)| == 0;
      assert report == [];
    }
    assert known.entries + kept == m;
    assert known.errors + report == [];
  }

  lemma {:induction false} ListComplete(s: Schema, items: seq<Value>, path: seq<Segment>, strip: bool)
    requires WellFormed(s) && s.List?
    requires ListConforms(s, items)
    ensures WalkList(s, items, path, strip) == Checked(Arr(items), [])
    decreases s, 2
  {
    var outcomes := ItemOutcomes(s, items, path, strip);
    forall i | 0 <= i < |items|
      ensures outcomes[i] == Checked(items[i], [])
    {
      WalkComplete(s.items, items[i], path + [Index(i)], strip);
    }
    assert WalkList(s, items, path, strip).value.items == items;
  }

  /** Validating what validation produced changes nothing and reports nothing. */
  lemma ValidateIdempotent(s: Schema, v: Value, opts: Options)
    requires WellFormed(s)
    requires Validate(s, v, opts).errors == []
    ensures Validate(s, Validate(s, v, opts).value, opts) == Checked(Validate(s, v, opts).value, [])
  {
    var w := Validate(s, v, opts).value;
    WalkSound(s, v, [], opts.stripUnknown);
    WalkComplete(s, w, [], opts.stripUnknown);
  }

  /** A value that passes `validate` comes out conforming to the schema. */
  lemma ValidateSound(s: Schema, v: Value, opts: Options)
    requires WellFormed(s)
    requires Validate(s, v, opts).errors == []
    ensures Conforms(s, Validate(s, v, opts).value)
  {
    WalkSound(s, v, [], opts.stripUnknown);
  }

  /** A conforming value passes `validate` unchanged. */
  lemma ValidateComplete(s: Schema, v: Value, opts: Options)
    requires WellFormed(s) && Conforms(s, v)
    ensures Validate(s, v, opts) == Checked(v, [])
  {
    WalkComplete(s, v, [], opts.stripUnknown);
  }

  /** In a conforming object a key that is not optional is present and conforms. */
  lemma ConformingField(s: Schema, m: map<string, Value>, i: nat)
    requires s.Keys? && KeysConform(s, m) && i < |s.fields|
    ensures s.fields[i].presence != Optional ==> s.fields[i].key in m
    ensures s.fields[i].key in m ==> Conforms(s.fields[i].schema, m[s.fields[i].key])
  {
  }

  // ---- Reporting: each violation is reported where it occurs ----

  /** A required key that is absent is reported at its path. */
  lemma MissingRequiredReported(s: Schema, m: map<string, Value>, i: nat, path: seq<Segment>, strip: bool)
    requires WellFormed(s) && s.Keys? && i < |s.fields|
    requires s.fields[i].presence == Required && s.fields[i].key !in m
    ensures Detail(path + [Key(s.fields[i].key)], AnyRequired, None) in Walk(s, Obj(m), path, strip).errors
  {
    var outcomes := FieldOutcomes(s, m, path, strip);
    var d := Detail(path + [Key(s.fields[i].key)], AnyRequired, None);
    assert outcomes[i] == WalkField(s, i, m, path, strip);
    assert d in outcomes[i].errors;
    GatherError(s.fields, outcomes, i, d);
    assert Walk(s, Obj(m), path, strip) == WalkKeys(s, m, path, strip);
  }

  /** The violations inside a present key are reported. */
  lemma FieldErrorsReported(s: Schema, m: map<string, Value>, i: nat, path: seq<Segment>, strip: bool, d: Detail)
    requires WellFormed(s) && s.Keys? && i < |s.fields|
    requires s.fields[i].key in m
    requires d in Walk(s.fields[i].schema, m[s.fields[i].key], path + [Key(s.fields[i].key)], strip).errors
    ensures d in Walk(s, Obj(m), path, strip).errors
  {
    var outcomes := FieldOutcomes(s, m, path, strip);
    assert outcomes[i] == WalkField(s, i, m, path, strip);
    assert d in outcomes[i].errors;
    GatherError(s.fields, outcomes, i, d);
    assert Walk(s, Obj(m), path, strip) == WalkKeys(s, m, path, strip);
  }

  /** A present key's converted value is what the object carries. */
  lemma FieldConverted(s: Schema, m: map<string, Value>, i: nat, path: seq<Segment>, strip: bool)
    requires WellFormed(s) && s.Keys? && i < |s.fields|
    requires s.fields[i].key in m
    ensures Walk(s, Obj(m), path, strip).value.Obj?
    ensures s.fields[i].key in Walk(s, Obj(m), path, strip).value.fields
    ensures Walk(s, Obj(m), path, strip).value.fields[s.fields[i].key]
            == Walk(s.fields[i].schema, m[s.fields[i].key], path + [Key(s.fields[i].key)], strip).value
  {
    var key := s.fields[i].key;
    var outcomes := FieldOutcomes(s, m, path, strip);
    var known := Gather(s.fields, outcomes, 0);
    assert outcomes[i] == WalkField(s, i, m, path, strip);
    assert outcomes[i].entry == Some(Walk(s.fields[i].schema, m[key], path + [Key(key)], strip).value);
    GatherEntry(s.fields, outcomes, i);
    assert IsFieldKey(s.fields, key);
    KeptNotNamed(s, m, strip, key);
    assert Walk(s, Obj(m), path, strip).value == Obj(known.entries + KeptUnknown(s, m, strip));
  }

  /** An absent key with a constant default carries the default. */
  lemma DefaultApplied(s: Schema, m: map<string, Value>, i: nat, path: seq<Segment>, strip: bool)
    requires WellFormed(s) && s.Keys? && i < |s.fields|
    requires s.fields[i].presence.Default? && s.fields[i].key !in m
    ensures Walk(s, Obj(m), path, strip).value.Obj?
    ensures s.fields[i].key in Walk(s, Obj(m), path, strip).value.fields
    ensures Walk(s, Obj(m), path, strip).value.fields[s.fields[i].key] == s.fields[i].presence.value
  {
    var key := s.fields[i].key;
    var outcomes := FieldOutcomes(s, m, path, strip);
    var known := Gather(s.fields, outcomes, 0);
    assert outcomes[i] == WalkField(s, i, m, path, strip);
    assert outcomes[i].entry == Some(s.fields[i].presence.value);
    GatherEntry(s.fields, outcomes, i);
    assert IsFieldKey(s.fields, key);
    KeptNotNamed(s, m, strip, key);
    assert Walk(s, Obj(m), path, strip).value == Obj(known.entries + KeptUnknown(s, m, strip));
  }

  /** An unknown key is reported when the object forbids unknown keys, or
      when its setting is not set and unknown keys are not stripped. */
  lemma UnknownKeyReported(s: Schema, m: map<string, Value>, key: string, path: seq<Segment>, strip: bool)
    requires s.Keys? && key in m && !IsFieldKey(s.fields, key)
    requires s.unknown == Forbidden || (s.unknown == Unset && !strip)
    ensures Detail(path + [Key(key)], ObjectUnknown, Some(m[key])) in Walk(s, Obj(m), path, strip).errors
  {
    var extra := UnknownKeys(s.fields, m);
    var report := UnknownReport(s, m, path, strip);
    assert report == UnknownDetails(extra, m, path);
    var i :| 0 <= i < |extra| && extra[i] == key;
    assert report[i] == Detail(path + [Key(key)], ObjectUnknown, Some(m[key]));
    var known := Gather(s.fields, FieldOutcomes(s, m, path, strip), 0);
    assert Walk(s, Obj(m), path, strip).errors == known.errors + report;
  }

  /** With stripping on, an unknown key of an object whose setting is not
      set is silently dropped. */
  lemma UnknownKeyStripped(s: Schema, m: map<string, Value>, key: string, path: seq<Segment>)
    requires WellFormed(s) && s.Keys? && s.unknown == Unset
    requires key in m && !IsFieldKey(s.fields, key)
    ensures Walk(s, Obj(m), path, true).value.Obj?
    ensures key !in Walk(s, Obj(m), path, true).value.fields
  {
    var outcomes := FieldOutcomes(s, m, path, true);
    var known := Gather(s.fields, outcomes, 0);
    assert KeptUnknown(s, m, true) == map[];
    assert Walk(s, Obj(m), path, true).value == Obj(known.entries);
    if key in known.entries {
      GatherNamed(s.fields, outcomes, key);
    }
  }

  /** The violations inside an array element are reported. */
  lemma ItemErrorsReported(s: Schema, items: seq<Value>, i: nat, path: seq<Segment>, strip: bool, d: Detail)
    requires s.List? && i < |items|
    requires d in Walk(s.items, items[i], path + [Index(i)], strip).errors
    ensures d in Walk(s, Arr(items), path, strip).errors
  {
    var outcomes := ItemOutcomes(s, items, path, strip);
    assert d in outcomes[i].errors;
  }

  /** An array longer than its maximum is reported. */
  lemma ArrayMaxReported(s: Schema, items: seq<Value>, path: seq<Segment>, strip: bool)
    requires s.List? && s.max.Some? && |items| > s.max.value
    ensures Detail(path, ArrayMax(s.max.value), Some(Arr(items))) in Walk(s, Arr(items), path, strip).errors
  {
  }

  /** A string outside the listed values is reported first; the type check
      follows, so an empty string is reported as empty as well, and a
      non-empty one is held to the string rules. */
  lemma NotListedReported(s: Schema, x: string, path: seq<Segment>, strip: bool)
    requires s.Text? && s.only != []
    requires (if s.trim then Trim(x) else x) !in s.only
    requires !(s.allowEmpty && (if s.trim then Trim(x) else x) == "")
    ensures var y := if s.trim then Trim(x) else x;
            Walk(s, Str(x), path, strip).errors
              == [Detail(path, AnyOnly(s.only), Some(Str(y)))]
                 + (if y == "" then [Detail(path, StringEmpty, Some(Str(y)))] else StringRuleErrors(s.rules, y, path, Str(y)))
  {
  }

  /** A value that is not a string, checked against a list of strings, is
      reported as unlisted and as not a string. */
  lemma NotStringReported(s: Schema, v: Value, path: seq<Segment>, strip: bool)
    requires s.Text? && s.only != [] && !v.Str?
    ensures Walk(s, v, path, strip).errors == [Detail(path, AnyOnly(s.only), Some(v)), Detail(path, StringBase, Some(v))]
  {
  }
}

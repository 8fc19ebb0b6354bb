// The consistency check of the location list (`validateLocationConsistency`):
// one pass over the records that reports a name or a Google Maps link seen
// before, at its index, and every record that fails its own check, with the
// messages of that check. The names and links seen so far are kept in two
// `Set`s, which find a value again only when it is `undefined` or a
// primitive. A record whose own check throws makes the whole check throw.
module LocationConsistency {
  import opened Wrappers
  import opened Strings
  import opened JsValue
  import opened Verdicts
  import opened LocationValidation

  /** One finding of the consistency check: a repeated name or link at an
      index, or an invalid record with its errors. */
  datatype Issue =
    | DuplicateName(name: Option<Value>, index: nat)
    | DuplicateUrl(url: Option<Value>, index: nat)
    | Invalid(name: Option<Value>, errors: seq<LocationError>)

  /** `{ isValid, errors }` of the consistency check, the errors kept as
      the findings they describe. */
  datatype Report = Report(isValid: bool, issues: seq<Issue>)

  /** A value a `Set` can find again: `undefined` or a primitive. Objects
      and arrays are distinct references, so `has` never finds them. */
  predicate Keyable(v: Option<Value>)
  {
    v.None? || !(v.value.Arr? || v.value.Obj? || v.value.Func?)
  }

  /** `a === b` is `Keyable(a) && a == b`: strict equality holds between
      equal primitives (and between two `undefined`) and never for objects. */
  lemma StrictEqualsKeyable(a: Option<Value>, b: Option<Value>)
    ensures StrictEquals(a, b) <==> Keyable(a) && a == b
  {
  }

  /** What the check reads of the records, column by column: the names,
      the links and the outcome of each record's own validation. */
  datatype Table = Table(names: seq<Option<Value>>, urls: seq<Option<Value>>, checks: seq<Checked<LocationError>>)

  predicate Aligned(t: Table)
  {
    |t.urls| == |t.names| && |t.checks| == |t.names|
  }

  /** One property of every record, in order. */
  function Column(locs: seq<Value>, key: string): (r: seq<Option<Value>>)
    ensures |r| == |locs| && forall j :: 0 <= j < |locs| ==> r[j] == Prop(locs[j], key)
  {
    if locs == [] then [] else [Prop(locs[0], key)] + Column(locs[1..], key)
  }

  /** The outcome of `validateLocationData` on every record, in order. */
  function Checks(locs: seq<Value>): (r: seq<Checked<LocationError>>)
    ensures |r| == |locs|
  {
    if locs == [] then [] else [LocationCheck(locs[0])] + Checks(locs[1..])
  }

  /** Outcome `k` is that of the check of record `k`. */
  lemma {:induction false} CheckAt(locs: seq<Value>, k: nat)
    requires k < |locs|
    ensures Checks(locs)[k] == LocationCheck(locs[k])
  {
    if k > 0 {
      CheckAt(locs[1..], k - 1);
    }
  }

  /** Outcome `k` throws exactly when record `k` is `null` or has an
      address that is truthy but not a string. */
  lemma CheckThrows(locs: seq<Value>, k: nat)
    requires k < |locs|
    ensures Checks(locs)[k].Throws? <==> locs[k].Null? || AddressThrows(locs[k])
  {
    CheckAt(locs, k);
  }

  function TableOf(locs: seq<Value>): (t: Table)
    ensures Aligned(t) && |t.names| == |locs|
  {
    Table(Column(locs, "location"), Column(locs, "mapsUrl"), Checks(locs))
  }

  /** `keys[k]` repeats an earlier key in the sense of `===`. */
  predicate Repeats(keys: seq<Option<Value>>, k: nat)
    requires k < |keys|
  {
    Keyable(keys[k]) && keys[k] in keys[..k]
  }

  /** Some earlier key is strictly equal (`===`) to `keys[k]`. */
  predicate SeenBefore(keys: seq<Option<Value>>, k: nat)
    requires k < |keys|
  {
    exists j | 0 <= j < k :: StrictEquals(keys[j], keys[k])
  }

  /** `Repeats` is the search `locationNames.has(…)` makes. */
  lemma RepeatsIff(keys: seq<Option<Value>>, k: nat)
    requires k < |keys|
    ensures Repeats(keys, k) <==> SeenBefore(keys, k)
  {
    if Repeats(keys, k) {
      var j :| 0 <= j < k && keys[..k][j] == keys[k];
      StrictEqualsKeyable(keys[j], keys[k]);
    }
    if SeenBefore(keys, k) {
      var j :| 0 <= j < k && StrictEquals(keys[j], keys[k]);
      StrictEqualsKeyable(keys[j], keys[k]);
      assert keys[..k][j] == keys[k];
    }
  }

  /** The findings for a record at index `k` that does not throw, given
      whether its name and its link were seen before. */
  function RecordFindings(name: Option<Value>, url: Option<Value>, check: Checked<LocationError>,
                          k: nat, nameSeen: bool, urlSeen: bool): seq<Issue>
    requires check.Returns?
  {
    (if nameSeen then [DuplicateName(name, k)] else [])
    + (if urlSeen then [DuplicateUrl(url, k)] else [])
    + (if check.verdict.isValid then [] else [Invalid(name, check.verdict.errors)])
  }

  /** The findings for record `k` of the table. */
  function RecordIssues(t: Table, k: nat): seq<Issue>
    requires Aligned(t) && k < |t.names| && t.checks[k].Returns?
  {
    RecordFindings(t.names[k], t.urls[k], t.checks[k], k, Repeats(t.names, k), Repeats(t.urls, k))
  }

  /** The findings of the first `n` records, `None` once the validation of
      one of them throws. */
  function Issues(t: Table, n: nat): Option<seq<Issue>>
    requires Aligned(t) && n <= |t.names|
  {
    if n == 0 then Some([])
    else match Issues(t, n - 1)
      case None => None
      case Some(found) =>
        if t.checks[n - 1].Throws? then None
        else Some(found + RecordIssues(t, n - 1))
  }

  function Summary(t: Table): Option<Report>
    requires Aligned(t)
  {
    match Issues(t, |t.names|)
    case None => None
    case Some(found) => Some(Report(found == [], found))
  }

  /** `validateLocationConsistency(locations)`, as a value. */
  function Consistency(locs: seq<Value>): Option<Report>
  {
    Summary(TableOf(locs))
  }

  /** The keys of the first `n` records that a `Set` holds. */
  function Keys(keys: seq<Option<Value>>, n: nat): set<Option<Value>>
    requires n <= |keys|
  {
    set j | 0 <= j < n && Keyable(keys[j]) :: keys[j]
  }

  /** What a set of the first `k` keys says about key `k`: its look-up is
      `Repeats`, and adding it gives the set of the first `k + 1` keys. */
  lemma SeenKey(keys: seq<Option<Value>>, k: nat, seen: set<Option<Value>>)
    requires k < |keys| && seen == Keys(keys, k)
    ensures (Keyable(keys[k]) && keys[k] in seen) == Repeats(keys, k)
    ensures Keys(keys, k + 1) == seen + (if Keyable(keys[k]) then {keys[k]} else {})
  {
    if Keyable(keys[k]) && keys[k] in seen {
      var j :| 0 <= j < k && Keyable(keys[j]) && keys[j] == keys[k];
      assert keys[..k][j] == keys[k];
    }
  }

  /** Once a record throws, the whole check throws. */
  lemma {:induction false} IssuesStayNone(t: Table, n: nat, m: nat)
    requires Aligned(t) && n <= m <= |t.names| && Issues(t, n).None?
    ensures Issues(t, m).None?
    decreases m - n
  {
    if n < m {
      IssuesStayNone(t, n + 1, m);
    }
  }

  /** Where the pass stands after the first `i` records: the findings so
      far, and the names and links seen so far. */
  predicate Tracked(locs: seq<Value>, i: nat, issues: seq<Issue>, names: set<Option<Value>>, urls: set<Option<Value>>)
    requires i <= |locs|
  {
    Issues(TableOf(locs), i) == Some(issues)
    && names == Keys(Column(locs, "location"), i) && urls == Keys(Column(locs, "mapsUrl"), i)
  }

  /** `validateLocationConsistency(locations)`: one pass, keeping the names
      and links seen so far in two sets. */
  method ValidateLocationConsistency(locations: seq<Value>) returns (r: Option<Report>)
    ensures r == Consistency(locations)
  {
    var issues: seq<Issue> := [];
    var names: set<Option<Value>> := {};
    var urls: set<Option<Value>> := {};
    var i := 0;
    while i < |locations|
      invariant i <= |locations| && Tracked(locations, i, issues, names, urls)
    {
      var found, names', urls' := Visit(locations, i, names, urls, issues);
      if found.None? {
        return None;
      }
      issues, names, urls := issues + found.value, names', urls';
      i := i + 1;
    }
    Finished(locations, issues, names, urls);
    r := Some(Report(issues == [], issues));
  }

  /** A pass that has tracked every record reports what it found. */
  lemma Finished(locs: seq<Value>, issues: seq<Issue>, names: set<Option<Value>>, urls: set<Option<Value>>)
    requires Tracked(locs, |locs|, issues, names, urls)
    ensures Consistency(locs) == Some(Report(issues == [], issues))
  {
  }

  /** One step of the pass: record `k` either makes the whole check throw,
      or takes the pass to the first `k + 1` records. */
  method Visit(locations: seq<Value>, k: nat, names: set<Option<Value>>, urls: set<Option<Value>>,
               ghost issues: seq<Issue>)
    returns (found: Option<seq<Issue>>, names': set<Option<Value>>, urls': set<Option<Value>>)
    requires k < |locations| && Tracked(locations, k, issues, names, urls)
    ensures found.None? ==> Consistency(locations).None?
    ensures found.Some? ==> Tracked(locations, k + 1, issues + found.value, names', urls')
  {
    found, names', urls' := VisitRecord(locations, k, names, urls);
    if found.None? {
      VisitThrows(locations, k);
      IssuesStayNone(TableOf(locations), k + 1, |locations|);
    } else {
      VisitStep(locations, k, issues, found.value);
    }
  }

  /** A record whose check throws makes the findings so far throw. */
  lemma VisitThrows(locs: seq<Value>, k: nat)
    requires k < |locs| && LocationCheck(locs[k]).Throws?
    ensures Issues(TableOf(locs), k + 1).None?
  {
    CheckAt(locs, k);
  }

  /** The findings of record `k`, as the pass computes them, extend those
      of the records before it. */
  lemma VisitStep(locs: seq<Value>, k: nat, issues: seq<Issue>, found: seq<Issue>)
    requires k < |locs| && Issues(TableOf(locs), k) == Some(issues) && LocationCheck(locs[k]).Returns?
    requires found == RecordFindings(Prop(locs[k], "location"), Prop(locs[k], "mapsUrl"),
                                     LocationCheck(locs[k]), k,
                                     Repeats(Column(locs, "location"), k), Repeats(Column(locs, "mapsUrl"), k))
    ensures Issues(TableOf(locs), k + 1) == Some(issues + found)
  {
    CheckAt(locs, k);
  }

  /** The body of the pass for record `k`: look its name and its link up,
      remember them, and check the record; `None` when that throws. */
  method VisitRecord(locations: seq<Value>, k: nat, names: set<Option<Value>>, urls: set<Option<Value>>)
    returns (found: Option<seq<Issue>>, names': set<Option<Value>>, urls': set<Option<Value>>)
    requires k < |locations|
    requires names == Keys(Column(locations, "location"), k) && urls == Keys(Column(locations, "mapsUrl"), k)
    ensures found.None? <==> LocationCheck(locations[k]).Throws?
    ensures found.Some? ==>
              found.value == RecordFindings(Prop(locations[k], "location"), Prop(locations[k], "mapsUrl"),
                                            LocationCheck(locations[k]), k,
                                            Repeats(Column(locations, "location"), k),
                                            Repeats(Column(locations, "mapsUrl"), k))
    ensures found.Some? ==>
              names' == Keys(Column(locations, "location"), k + 1) && urls' == Keys(Column(locations, "mapsUrl"), k + 1)
  {
    var location := locations[k];
    if location.Null? {
      // `location.location` of `null`
      return None, names, urls;
    }
    var name := Prop(location, "location");
    SeenKey(Column(locations, "location"), k, names);
    var nameSeen;
    nameSeen, names' := LookUp(name, names);
    var url := Prop(location, "mapsUrl");
    SeenKey(Column(locations, "mapsUrl"), k, urls);
    var urlSeen;
    urlSeen, urls' := LookUp(url, urls);
    found := Findings(location, name, url, k, nameSeen, urlSeen);
  }

  /** The validation of record `k` and the messages pushed for it. */
  method Findings(location: Value, name: Option<Value>, url: Option<Value>, k: nat, nameSeen: bool, urlSeen: bool)
    returns (found: Option<seq<Issue>>)
    ensures found.None? <==> LocationCheck(location).Throws?
    ensures found.Some? ==> found.value == RecordFindings(name, url, LocationCheck(location), k, nameSeen, urlSeen)
  {
    var validation := ValidateLocationData(location);
    if validation.Throws? {
      return None;
    }
    var more := (if nameSeen then [DuplicateName(name, k)] else [])
                + (if urlSeen then [DuplicateUrl(url, k)] else []);
    if !validation.verdict.isValid {
      more := more + [Invalid(name, validation.verdict.errors)];
    }
    found := Some(more);
  }

  /** `if (seen.has(key)) … else seen.add(key)`: whether the key was seen
      before, and the set afterwards. */
  method LookUp(key: Option<Value>, seen: set<Option<Value>>) returns (found: bool, seen': set<Option<Value>>)
    ensures found <==> Keyable(key) && key in seen
    ensures seen' == seen + (if Keyable(key) then {key} else {})
  {
    if Keyable(key) && key in seen {
      found, seen' := true, seen;
    } else if Keyable(key) {
      found, seen' := false, seen + {key};
    } else {
      // a new object or array: added, but never found again
      found, seen' := false, seen;
    }
  }

  /** One more record: a record that does not throw adds its findings. */
  lemma IssuesStep(t: Table, n: nat)
    requires Aligned(t) && 0 < n <= |t.names| && Issues(t, n).Some?
    ensures Issues(t, n - 1).Some? && t.checks[n - 1].Returns?
    ensures Issues(t, n).value == Issues(t, n - 1).value + RecordIssues(t, n - 1)
  {
  }

  /** The indices the findings report as repeated names, and as repeated links. */
  function NameIndices(found: seq<Issue>): set<nat>
  {
    if found == [] then {}
    else (if found[0].DuplicateName? then {found[0].index} else {}) + NameIndices(found[1..])
  }

  function UrlIndices(found: seq<Issue>): set<nat>
  {
    if found == [] then {}
    else (if found[0].DuplicateUrl? then {found[0].index} else {}) + UrlIndices(found[1..])
  }

  lemma {:induction false} IndicesAppend(a: seq<Issue>, b: seq<Issue>)
    ensures NameIndices(a + b) == NameIndices(a) + NameIndices(b)
    ensures UrlIndices(a + b) == UrlIndices(a) + UrlIndices(b)
  {
    if a == [] {
      assert a + b == b;
    } else {
      assert (a + b)[1..] == a[1..] + b;
      IndicesAppend(a[1..], b);
    }
  }

  /** The indices the findings of one record report. */
  lemma FindingsIndices(name: Option<Value>, url: Option<Value>, check: Checked<LocationError>,
                        k: nat, nameSeen: bool, urlSeen: bool)
    requires check.Returns?
    ensures NameIndices(RecordFindings(name, url, check, k, nameSeen, urlSeen)) == if nameSeen then {k} else {}
    ensures UrlIndices(RecordFindings(name, url, check, k, nameSeen, urlSeen)) == if urlSeen then {k} else {}
  {
    var a: seq<Issue> := if nameSeen then [DuplicateName(name, k)] else [];
    var b: seq<Issue> := if urlSeen then [DuplicateUrl(url, k)] else [];
    var c: seq<Issue> := if check.verdict.isValid then [] else [Invalid(name, check.verdict.errors)];
    IndicesAppend(a + b, c);
    IndicesAppend(a, b);
    assert NameIndices(a) == (if nameSeen then {k} else {}) && UrlIndices(a) == {};
    assert NameIndices(b) == {} && UrlIndices(b) == (if urlSeen then {k} else {});
    assert NameIndices(c) == {} && UrlIndices(c) == {};
  }

  /** Among the first `n` records, a name is flagged at `k` exactly when it
      repeats an earlier one, and likewise a link. */
  lemma {:induction false} FlaggedIff(t: Table, n: nat, k: nat)
    requires Aligned(t) && n <= |t.names| && Issues(t, n).Some? && k < |t.names|
    ensures k in NameIndices(Issues(t, n).value) <==> k < n && Repeats(t.names, k)
    ensures k in UrlIndices(Issues(t, n).value) <==> k < n && Repeats(t.urls, k)
  {
    if n > 0 {
      IssuesStep(t, n);
      var found := Issues(t, n - 1).value;
      var more := RecordIssues(t, n - 1);
      FlaggedIff(t, n - 1, k);
      IndicesAppend(found, more);
      FindingsIndices(t.names[n - 1], t.urls[n - 1], t.checks[n - 1], n - 1,
                      Repeats(t.names, n - 1), Repeats(t.urls, n - 1));
    }
  }

  /** Over the whole list: a record's name is reported as a duplicate at
      its index exactly when an earlier record's name is `===` to it, and
      likewise its link; so the first record is never reported. */
  lemma DuplicatesFlagged(locs: seq<Value>, k: nat)
    requires Consistency(locs).Some? && k < |locs|
    ensures k in NameIndices(Consistency(locs).value.issues) <==> SeenBefore(Column(locs, "location"), k)
    ensures k in UrlIndices(Consistency(locs).value.issues) <==> SeenBefore(Column(locs, "mapsUrl"), k)
  {
    var t := TableOf(locs);
    FlaggedIff(t, |locs|, k);
    RepeatsIff(t.names, k);
    RepeatsIff(t.urls, k);
  }

  function InvalidCount(found: seq<Issue>): nat
  {
    if found == [] then 0 else (if found[0].Invalid? then 1 else 0) + InvalidCount(found[1..])
  }

  lemma {:induction false} InvalidCountAppend(a: seq<Issue>, b: seq<Issue>)
    ensures InvalidCount(a + b) == InvalidCount(a) + InvalidCount(b)
  {
    if a == [] {
      assert a + b == b;
    } else {
      assert (a + b)[1..] == a[1..] + b;
      InvalidCountAppend(a[1..], b);
    }
  }

  /** The number of outcomes among the first `n` that return an invalid verdict. */
  function InvalidRecords(checks: seq<Checked<LocationError>>, n: nat): nat
    requires n <= |checks|
  {
    if n == 0 then 0
    else InvalidRecords(checks, n - 1) + (if checks[n - 1].Returns? && !checks[n - 1].verdict.isValid then 1 else 0)
  }

  /** The findings of one record hold one summary exactly when it is invalid. */
  lemma FindingsInvalid(name: Option<Value>, url: Option<Value>, check: Checked<LocationError>,
                        k: nat, nameSeen: bool, urlSeen: bool)
    requires check.Returns?
    ensures InvalidCount(RecordFindings(name, url, check, k, nameSeen, urlSeen)) == if check.verdict.isValid then 0 else 1
  {
    var a: seq<Issue> := if nameSeen then [DuplicateName(name, k)] else [];
    var b: seq<Issue> := if urlSeen then [DuplicateUrl(url, k)] else [];
    var c: seq<Issue> := if check.verdict.isValid then [] else [Invalid(name, check.verdict.errors)];
    InvalidCountAppend(a + b, c);
    InvalidCountAppend(a, b);
  }

  /** Each invalid record adds exactly one summary finding. */
  lemma {:induction false} OneSummaryPerInvalid(t: Table, n: nat)
    requires Aligned(t) && n <= |t.names| && Issues(t, n).Some?
    ensures InvalidCount(Issues(t, n).value) == InvalidRecords(t.checks, n)
  {
    if n > 0 {
      IssuesStep(t, n);
      OneSummaryPerInvalid(t, n - 1);
      var k := n - 1;
      InvalidCountAppend(Issues(t, k).value, RecordIssues(t, k));
      FindingsInvalid(t.names[k], t.urls[k], t.checks[k], k, Repeats(t.names, k), Repeats(t.urls, k));
    }
  }

  /** The validation of one of the first `n` records throws. */
  predicate SomeThrows(checks: seq<Checked<LocationError>>, n: nat)
    requires n <= |checks|
  {
    exists k | 0 <= k < n :: checks[k].Throws?
  }

  /** The check throws exactly when the validation of some record does. */
  lemma {:induction false} IssuesNoneIff(t: Table, n: nat)
    requires Aligned(t) && n <= |t.names|
    ensures Issues(t, n).None? <==> SomeThrows(t.checks, n)
  {
    if n > 0 {
      IssuesNoneIff(t, n - 1);
      if SomeThrows(t.checks, n) && !t.checks[n - 1].Throws? {
        var k :| 0 <= k < n && t.checks[k].Throws?;
        assert SomeThrows(t.checks, n - 1);
      }
    }
  }

  /** Over the whole list: the check throws exactly when some record is
      `null` or has an address that is truthy but not a string. */
  lemma ConsistencyThrows(locs: seq<Value>)
    ensures Consistency(locs).None? <==> exists k | 0 <= k < |locs| :: locs[k].Null? || AddressThrows(locs[k])
  {
    IssuesNoneIff(TableOf(locs), |locs|);
    ThrowsIff(locs);
  }

  /** Otherwise it reports one summary per invalid record, and it is valid
      exactly when it found nothing. */
  lemma ConsistencySummaries(locs: seq<Value>)
    requires Consistency(locs).Some?
    ensures InvalidCount(Consistency(locs).value.issues) == InvalidRecords(Checks(locs), |locs|)
    ensures Consistency(locs).value.isValid <==> Consistency(locs).value.issues == []
  {
    OneSummaryPerInvalid(TableOf(locs), |locs|);
  }

  lemma ThrowsIff(locs: seq<Value>)
    ensures SomeThrows(Checks(locs), |locs|) <==> exists k | 0 <= k < |locs| :: locs[k].Null? || AddressThrows(locs[k])
  {
    if k :| 0 <= k < |locs| && Checks(locs)[k].Throws? {
      CheckThrows(locs, k);
    }
    if k :| 0 <= k < |locs| && (locs[k].Null? || AddressThrows(locs[k])) {
      CheckThrows(locs, k);
    }
  }

  // ---- The text of the findings ----

  /** The message of a finding, when its value can be written out. */
  function IssueText(issue: Issue): Option<string>
  {
    match issue
    case DuplicateName(x, k) =>
      if ValueText(x).None? then None
      else Some("Duplicate location name \"" + ValueText(x).value + "\" at index " + NatText(k))
    case DuplicateUrl(x, k) =>
      if ValueText(x).None? then None
      else Some("Duplicate maps URL \"" + ValueText(x).value + "\" at index " + NatText(k))
    case Invalid(x, errors) =>
      if ValueText(x).None? then None
      else Some("Location \"" + ValueText(x).value + "\" has errors: " + Join(Texts(errors, Message), ", "))
  }

  /** A repeated string name is reported with its text and index. */
  lemma DuplicateNameText(name: string, k: nat)
    ensures IssueText(DuplicateName(Some(Str(name)), k)).Some?
    ensures StartsWith(IssueText(DuplicateName(Some(Str(name)), k)).value, "Duplicate location name \"" + name + "\"")
  {
    var t := "Duplicate location name \"" + name + "\"";
    assert IssueText(DuplicateName(Some(Str(name)), k)).value == t + (" at index " + NatText(k));
  }
}

// The check of one location record (`validateLocationData`) and the
// Google Maps link check (`isValidGoogleMapsUrl`). The record check runs
// seven checks in a fixed order and pushes the message of each that fails;
// a `null` record, or an address that is truthy but not a string, makes it
// throw a TypeError.
module LocationValidation {
  import opened Wrappers
  import opened Strings
  import opened JsValue
  import opened Verdicts
  import MapsUrl

  /** The messages of the record check. */
  datatype LocationError =
    | LocationNameRequired
    | AddressRequired
    | MapsUrlRequired
    | MapsUrlInvalid
    | AddressTooShort
    | ImagePathRequired
    | ImageAltRequired

  /** The text pushed for each message. */
  function Message(e: LocationError): string
  {
    match e
    case LocationNameRequired => "Location name is required and must be a non-empty string"
    case AddressRequired => "Address is required and must be a non-empty string"
    case MapsUrlRequired => "Maps URL is required and must be a string"
    case MapsUrlInvalid => "Maps URL must be a valid Google Maps URL"
    case AddressTooShort => "Address must contain at least 2 lines (street, city/country)"
    case ImagePathRequired => "Image path is required and must be a non-empty string"
    case ImageAltRequired => "Image alt text is required for accessibility"
  }

  /** Different messages have different texts, so the texts tell the
      failed checks apart. */
  lemma MessageInjective(a: LocationError, b: LocationError)
    ensures Message(a) == Message(b) <==> a == b
  {
    if a != b {
      MessageLength(a);
      MessageLength(b);
    }
  }

  /** The length of each text; no two are the same. */
  lemma MessageLength(e: LocationError)
    ensures |Message(e)| == match e
      case LocationNameRequired => 56
      case AddressRequired => 50
      case MapsUrlRequired => 41
      case MapsUrlInvalid => 40
      case AddressTooShort => 60
      case ImagePathRequired => 53
      case ImageAltRequired => 44
  {
    match e
    case LocationNameRequired =>
    case AddressRequired =>
    case MapsUrlRequired =>
    case MapsUrlInvalid =>
    case AddressTooShort =>
    case ImagePathRequired =>
    case ImageAltRequired =>
  }


  /** The lines of a text with something other than whitespace on them. */
  function FilledLines(lines: seq<string>): seq<string>
  {
    if lines == [] then []
    else (if HasNonSpace(lines[0]) then [lines[0]] else []) + FilledLines(lines[1..])
  }

  /** The filter keeps exactly the lines whose trimmed text is not empty. */
  lemma {:induction false} FilledLinesKeep(lines: seq<string>)
    ensures |FilledLines(lines)| <= |lines|
    ensures forall x :: x in FilledLines(lines) <==> x in lines && Trim(x) != ""
  {
    if lines != [] {
      FilledLinesKeep(lines[1..]);
      TrimNonEmptyIff(lines[0]);
      forall x | x in lines && Trim(x) != "" ensures x in FilledLines(lines) {
        TrimNonEmptyIff(x);
      }
    }
  }

  /** The address lines `address.split('\n').filter(line => line.trim().length > 0)`. */
  function AddressLines(address: string): seq<string>
  {
    FilledLines(Split(address, '\n'))
  }

  /** `isValidGoogleMapsUrl(url)`: the URL parses, its host is exactly
      `maps.google.com` and it has a `q` parameter; a parse failure is `false`. */
  predicate IsValidGoogleMapsUrl(url: string)
  {
    MapsUrl.IsValidMapsUrl(url)
  }

  /** `isValidGoogleMapsUrl(v)` for a property value, which `new URL`
      first turns into text: an array into its elements joined by commas,
      an object into `[object Object]`, a number or a boolean into a text
      without a scheme. */
  predicate MapsLink(v: Value)
  {
    var t := Text(v);
    t.Some? && IsValidGoogleMapsUrl(t.value)
  }

  /** An array of several texts is judged by their comma-joined text, so
      a link followed by more elements can pass. */
  lemma JoinedArrayLink(link: string, more: string)
    requires link == "https://maps.google.com/?q=studio" && more == "Paris"
    ensures MapsLink(Arr([Str(link), Str(more)]))
  {
    PairText(link, more);
    var h, q := MapsUrl.MapsHost, "q=studio,Paris";
    StudioLinkText(link, more, h, q);
    StudioHost(h);
    StudioQuery(q);
    MapsUrl.HttpsLink(h, q);
  }

  lemma StudioLinkText(link: string, more: string, h: string, q: string)
    requires link == "https://maps.google.com/?q=studio" && more == "Paris"
    requires h == "maps.google.com" && q == "q=studio,Paris"
    ensures link + "," + more == "https://" + h + "/?" + q
  {
  }

  lemma StudioHost(h: string)
    requires h == "maps.google.com"
    ensures h != [] && forall i :: 0 <= i < |h| ==> MapsUrl.LinkHostChar(h[i])
    ensures MapsUrl.DomainOf(h) == Some(MapsUrl.MapsHost)
  {
    assert forall i :: 0 <= i < |h| ==> 'a' <= h[i] <= 'z' || h[i] == '.';
    MapsUrl.LetterDomain(h);
  }

  /** Two texts in an array are written out joined by a comma. */
  lemma PairText(a: string, b: string)
    ensures Text(Arr([Str(a), Str(b)])) == Some(a + "," + b)
  {
    var items := [Str(a), Str(b)];
    assert items[0] == Str(a) && items[1..] == [Str(b)];
    assert ElementsText([Str(b)]) == Some(b);
    assert ElementsText(items) == Some(a + "," + b);
  }

  lemma StudioQuery(q: string)
    requires q == "q=studio,Paris"
    ensures forall i :: 0 <= i < |q| ==> MapsUrl.PlainQueryChar(q[i])
    ensures MapsUrl.HasParam(q, "q")
  {
    SplitWhole(q, '&');
    assert q[..1] == "q" && q[1] == '=';
    assert MapsUrl.BeforeFirst(q, '=') == "q";
    assert MapsUrl.PlusAsSpace("q") == "q";
    MapsUrl.NoEscapeKept("q");
    assert MapsUrl.ParamName(q) == "q";
  }

  /** The address is truthy but not a string, so it has no `split`. */
  predicate AddressThrows(location: Value)
  {
    Present(Prop(location, "address")) && !Prop(location, "address").value.Str?
  }

  /** The messages of seven checks, given which of them fail, in the
      order `validateLocationData` makes them. */
  function Collect(name: bool, address: bool, urlText: bool, urlLink: bool, lines: bool, imagePath: bool, imageAlt: bool)
    : seq<LocationError>
  {
    Flag(name, LocationNameRequired)
    + Flag(address, AddressRequired)
    + Flag(urlText, MapsUrlRequired)
    + Flag(urlLink, MapsUrlInvalid)
    + Flag(lines, AddressTooShort)
    + Flag(imagePath, ImagePathRequired)
    + Flag(imageAlt, ImageAltRequired)
  }

  // The seven checks of `validateLocationData`, each as whether it fails.

  predicate NameMissing(location: Value)
  {
    !FilledText(Prop(location, "location"))
  }

  predicate AddressMissing(location: Value)
  {
    !FilledText(Prop(location, "address"))
  }

  predicate UrlNotText(location: Value)
  {
    var url := Prop(location, "mapsUrl");
    !(Present(url) && url.value.Str?)
  }

  predicate UrlNotLink(location: Value)
  {
    var url := Prop(location, "mapsUrl");
    Present(url) && !MapsLink(url.value)
  }

  predicate OneLine(location: Value)
  {
    var address := Prop(location, "address");
    Present(address) && address.value.Str? && |AddressLines(address.value.s)| < 2
  }

  predicate ImagePathMissing(location: Value)
  {
    !FilledText(Prop(location, "imagePath"))
  }

  predicate ImageAltMissing(location: Value)
  {
    !FilledText(Prop(location, "imageAlt"))
  }

  /** The messages of `validateLocationData`. */
  function LocationErrors(location: Value): seq<LocationError>
  {
    Collect(NameMissing(location), AddressMissing(location), UrlNotText(location), UrlNotLink(location),
            OneLine(location), ImagePathMissing(location), ImageAltMissing(location))
  }

  /** `validateLocationData(location)`, as a value. */
  function LocationCheck(location: Value): (c: Checked<LocationError>)
    ensures c.Throws? <==> location.Null? || AddressThrows(location)
    ensures c.Returns? ==> (c.verdict.isValid <==> c.verdict.errors == [])
  {
    if location.Null? || AddressThrows(location) then Throws
    else
      var errors := LocationErrors(location);
      Returns(Verdict(errors == [], errors))
  }

  /** `validateLocationData(location)`: the checks one after the other,
      each pushing its message. */
  method ValidateLocationData(location: Value) returns (c: Checked<LocationError>)
    ensures c == LocationCheck(location)
  {
    if location.Null? {
      return Throws;
    }
    var name, address, urlText, urlLink := NameMissing(location), AddressMissing(location),
                                           UrlNotText(location), UrlNotLink(location);
    var errors: seq<LocationError> := [];
    errors := PushIf(errors, name, LocationNameRequired);
    assert errors == Flag(name, LocationNameRequired);
    errors := PushIf(errors, address, AddressRequired);
    errors := PushIf(errors, urlText, MapsUrlRequired);
    errors := PushIf(errors, urlLink, MapsUrlInvalid);
    if AddressThrows(location) {
      // `address.split` is not a function
      return Throws;
    }
    var lines, imagePath, imageAlt := OneLine(location), ImagePathMissing(location), ImageAltMissing(location);
    errors := PushIf(errors, lines, AddressTooShort);
    errors := PushIf(errors, imagePath, ImagePathRequired);
    errors := PushIf(errors, imageAlt, ImageAltRequired);
    assert errors == Collect(name, address, urlText, urlLink, lines, imagePath, imageAlt);
    c := Returns(Verdict(|errors| == 0, errors));
  }

  /** A record passes exactly when every field is filled, the link is a
      Google Maps link and the address has at least two filled lines. */
  lemma LocationValidIff(location: Value)
    requires !location.Null? && !AddressThrows(location)
    ensures LocationCheck(location).verdict.isValid <==>
              && FilledText(Prop(location, "location"))
              && FilledText(Prop(location, "address"))
              && |AddressLines(Prop(location, "address").value.s)| >= 2
              && Prop(location, "mapsUrl").Some? && Prop(location, "mapsUrl").value.Str?
              && MapsLink(Prop(location, "mapsUrl").value)
              && FilledText(Prop(location, "imagePath"))
              && FilledText(Prop(location, "imageAlt"))
  {
    var c := LocationCheck(location);
    assert c.verdict.errors == Collect(NameMissing(location), AddressMissing(location), UrlNotText(location),
                                       UrlNotLink(location), OneLine(location), ImagePathMissing(location),
                                       ImageAltMissing(location));
    CollectEmpty(NameMissing(location), AddressMissing(location), UrlNotText(location), UrlNotLink(location),
                 OneLine(location), ImagePathMissing(location), ImageAltMissing(location));
    UrlPasses(location);
    AddressPasses(location);
  }

  /** The two link checks pass exactly for a string that is a Google Maps
      link. */
  lemma UrlPasses(location: Value)
    ensures !UrlNotText(location) && !UrlNotLink(location)
            <==> Prop(location, "mapsUrl").Some? && Prop(location, "mapsUrl").value.Str? && MapsLink(Prop(location, "mapsUrl").value)
  {
    MapsUrl.NoSchemeRejected("");
  }

  /** The two address checks pass exactly for a filled address of at least
      two filled lines. */
  lemma AddressPasses(location: Value)
    ensures !AddressMissing(location) && !OneLine(location)
            <==> FilledText(Prop(location, "address")) && |AddressLines(Prop(location, "address").value.s)| >= 2
  {
  }

  /** No message is collected exactly when no check fails. */
  lemma CollectEmpty(name: bool, address: bool, urlText: bool, urlLink: bool, lines: bool, imagePath: bool, imageAlt: bool)
    ensures Collect(name, address, urlText, urlLink, lines, imagePath, imageAlt) == []
            <==> !name && !address && !urlText && !urlLink && !lines && !imagePath && !imageAlt
  {
  }

  /** The check whose failure pushes `m`. */
  predicate Fails(location: Value, m: LocationError)
  {
    match m
    case LocationNameRequired => NameMissing(location)
    case AddressRequired => AddressMissing(location)
    case MapsUrlRequired => UrlNotText(location)
    case MapsUrlInvalid => UrlNotLink(location)
    case AddressTooShort => OneLine(location)
    case ImagePathRequired => ImagePathMissing(location)
    case ImageAltRequired => ImageAltMissing(location)
  }

  /** Of the seven checks, the one whose message is `m`. */
  function Chosen(m: LocationError, name: bool, address: bool, urlText: bool, urlLink: bool, lines: bool,
                  imagePath: bool, imageAlt: bool): bool
  {
    match m
    case LocationNameRequired => name
    case AddressRequired => address
    case MapsUrlRequired => urlText
    case MapsUrlInvalid => urlLink
    case AddressTooShort => lines
    case ImagePathRequired => imagePath
    case ImageAltRequired => imageAlt
  }

  /** A message is among the collected ones exactly when its check fails. */
  lemma CollectIn(m: LocationError, name: bool, address: bool, urlText: bool, urlLink: bool, lines: bool,
                  imagePath: bool, imageAlt: bool)
    ensures m in Collect(name, address, urlText, urlLink, lines, imagePath, imageAlt)
            <==> Chosen(m, name, address, urlText, urlLink, lines, imagePath, imageAlt)
  {
    var p1 := Flag(name, LocationNameRequired);
    var p2 := p1 + Flag(address, AddressRequired);
    var p3 := p2 + Flag(urlText, MapsUrlRequired);
    var p4 := p3 + Flag(urlLink, MapsUrlInvalid);
    var p5 := p4 + Flag(lines, AddressTooShort);
    var p6 := p5 + Flag(imagePath, ImagePathRequired);
    FlagIn(p6, imageAlt, ImageAltRequired, m);
    FlagIn(p5, imagePath, ImagePathRequired, m);
    FlagIn(p4, lines, AddressTooShort, m);
    FlagIn(p3, urlLink, MapsUrlInvalid, m);
    FlagIn(p2, urlText, MapsUrlRequired, m);
    FlagIn(p1, address, AddressRequired, m);
  }

  /** The position of each check in the series. */
  function Rank(e: LocationError): nat
  {
    match e
    case LocationNameRequired => 0
    case AddressRequired => 1
    case MapsUrlRequired => 2
    case MapsUrlInvalid => 3
    case AddressTooShort => 4
    case ImagePathRequired => 5
    case ImageAltRequired => 6
  }

  /** The messages come in the order of their checks; in particular none
      comes twice. */
  predicate InOrder(errors: seq<LocationError>)
  {
    forall i, j :: 0 <= i < j < |errors| ==> Rank(errors[i]) < Rank(errors[j])
  }

  /** Every message comes from a check before position `r`. */
  predicate Below(errors: seq<LocationError>, r: nat)
  {
    forall i :: 0 <= i < |errors| ==> Rank(errors[i]) < r
  }

  /** A later check keeps the messages in order. */
  lemma FlagInOrder(errors: seq<LocationError>, failed: bool, message: LocationError)
    requires InOrder(errors) && Below(errors, Rank(message))
    ensures InOrder(errors + Flag(failed, message)) && Below(errors + Flag(failed, message), Rank(message) + 1)
  {
  }

  lemma CollectInOrder(name: bool, address: bool, urlText: bool, urlLink: bool, lines: bool,
                       imagePath: bool, imageAlt: bool)
    ensures InOrder(Collect(name, address, urlText, urlLink, lines, imagePath, imageAlt))
  {
    var p := Flag(name, LocationNameRequired);
    p := NextInOrder(p, address, AddressRequired);
    p := NextInOrder(p, urlText, MapsUrlRequired);
    p := NextInOrder(p, urlLink, MapsUrlInvalid);
    p := NextInOrder(p, lines, AddressTooShort);
    p := NextInOrder(p, imagePath, ImagePathRequired);
    p := NextInOrder(p, imageAlt, ImageAltRequired);
  }

  /** `FlagInOrder`, naming the longer list. */
  lemma NextInOrder(errors: seq<LocationError>, failed: bool, message: LocationError) returns (r: seq<LocationError>)
    requires InOrder(errors) && Below(errors, Rank(message))
    ensures r == errors + Flag(failed, message)
    ensures InOrder(r) && Below(r, Rank(message) + 1)
  {
    FlagInOrder(errors, failed, message);
    r := errors + Flag(failed, message);
  }

  /** Each message is reported exactly when its check fails. */
  lemma LocationMessage(location: Value, m: LocationError)
    requires !location.Null? && !AddressThrows(location)
    ensures m in LocationCheck(location).verdict.errors <==> Fails(location, m)
  {
    CollectIn(m, NameMissing(location), AddressMissing(location), UrlNotText(location), UrlNotLink(location),
              OneLine(location), ImagePathMissing(location), ImageAltMissing(location));
  }

  /** The messages are reported in the order of the checks, none twice. */
  lemma LocationInOrder(location: Value)
    requires !location.Null? && !AddressThrows(location)
    ensures InOrder(LocationCheck(location).verdict.errors)
  {
    CollectInOrder(NameMissing(location), AddressMissing(location), UrlNotText(location), UrlNotLink(location),
                   OneLine(location), ImagePathMissing(location), ImageAltMissing(location));
  }

  /** At most one message per check. */
  lemma LocationErrorBound(location: Value)
    requires !location.Null? && !AddressThrows(location)
    ensures |LocationCheck(location).verdict.errors| <= 7
  {
  }

  /** A filled address without a line break is reported as too short. */
  lemma OneLineAddress(location: Value)
    requires !location.Null? && FilledText(Prop(location, "address"))
    requires '\n' !in Prop(location, "address").value.s
    ensures LocationCheck(location).Returns?
    ensures AddressTooShort in LocationCheck(location).verdict.errors
    ensures !LocationCheck(location).verdict.isValid
  {
    SingleLine(Prop(location, "address").value.s);
    LocationMessage(location, AddressTooShort);
  }

  /** A filled text without a line break has just one line. */
  lemma SingleLine(a: string)
    requires '\n' !in a && HasNonSpace(a)
    ensures AddressLines(a) == [a]
  {
    SplitWithout(a, '\n');
    assert FilledLines([a]) == [a] + FilledLines([a][1..]);
  }

  /** A text without the separator splits into itself. */
  lemma SplitWithout(s: string, sep: char)
    requires sep !in s
    ensures Split(s, sep) == [s]
  {
    match IndexOf(s, [sep])
    case None =>
    case Some(i) =>
      assert s[i..i + 1][0] == sep;
  }
}

// The location button of the footer, the mobile menu and the contact page:
// the label and minimum width looked up by location key, and the three
// forms the button takes.
module LocationButton {
  import opened Strings
  import Typography

  /** The label tables's keys. */
  predicate Known(location: string)
  {
    location == "brooklyn" || location == "beverlyhills" || location == "london"
  }

  /** No lower-case ASCII letter. */
  predicate NoLower(s: string)
  {
    forall i :: 0 <= i < |s| ==> !('a' <= s[i] <= 'z')
  }

  /** `getLocationName`: the label of a known key, otherwise the key in
      upper case (the empty key gives the empty label). */
  function LocationName(location: string): (r: string)
    ensures location == "brooklyn" ==> r == "NEW YORK"
    ensures location == "beverlyhills" ==> r == "BEVERLY HILLS"
    ensures location == "london" ==> r == "LONDON"
    ensures !Known(location) ==> r == Upper(location)
  {
    if location == "brooklyn" then "NEW YORK"
    else if location == "beverlyhills" then "BEVERLY HILLS"
    else if location == "london" then "LONDON"
    else Upper(location)
  }

  /** Every label is in capitals, whatever the key. */
  lemma LabelInCapitals(location: string)
    ensures NoLower(LocationName(location))
  {
    var r := LocationName(location);
    if !Known(location) {
      forall i | 0 <= i < |r| ensures !('a' <= r[i] <= 'z') {
        assert r[i] == UpperChar(location[i]);
      }
    } else if location == "brooklyn" {
      assert r == "NEW YORK";
    } else if location == "beverlyhills" {
      assert r == "BEVERLY HILLS";
    } else {
      assert r == "LONDON";
    }
  }

  /** An unknown key keeps its length and its letters, capitalised. */
  lemma UnknownLabel(location: string)
    requires !Known(location)
    ensures |LocationName(location)| == |location|
    ensures forall i :: 0 <= i < |location| && 'A' <= location[i] <= 'Z' ==> LocationName(location)[i] == location[i]
  {
  }

  /** `getMinWidth`: the minimum width of a known key, 200 pixels for any
      other. */
  function MinWidthPixels(location: string): (px: nat)
    ensures px in {160, 200, 280}
    ensures location == "beverlyhills" <==> px == 280
    ensures location == "london" <==> px == 160
  {
    if location == "beverlyhills" then 280
    else if location == "london" then 160
    else 200
  }

  /** The width as a class. */
  function MinWidth(location: string): string
  {
    "min-w-[" + NatText(MinWidthPixels(location)) + "px]"
  }

  /** The decimal text of a three-digit number. */
  lemma ThreeDigits(n: nat)
    requires 100 <= n < 1000
    ensures NatText(n) == [DigitChar(n / 100), DigitChar(n / 10 % 10), DigitChar(n % 10)]
  {
    assert NatText(n / 10) == NatText(n / 100) + [DigitChar(n / 10 % 10)];
  }

  /** The table's width classes, and the default. */
  lemma MinWidthTexts(location: string)
    ensures location == "beverlyhills" ==> MinWidth(location) == "min-w-[280px]"
    ensures location == "london" ==> MinWidth(location) == "min-w-[160px]"
    ensures location != "beverlyhills" && location != "london" ==> MinWidth(location) == "min-w-[200px]"
  {
    ThreeDigits(MinWidthPixels(location));
  }

  const Outline: string := "border-studio-orange"
  const Fill: string := " bg-studio-orange"

  /** The dot of the contact form: filled in orange when active. */
  function DotClasses(isActive: bool): string
  {
    if isActive then Outline + Fill else Outline
  }

  /** The dot is filled exactly when the button is active. */
  lemma DotFilledIff(isActive: bool)
    ensures EndsWith(DotClasses(isActive), Fill) <==> isActive
  {
    var d := DotClasses(isActive);
    if isActive {
      assert d[|d| - |Fill|..] == Fill;
    } else {
      assert |Outline| == 20 && |Fill| == 17;
      assert d[3] == 'd' && Fill[0] == ' ';
      assert d[|d| - |Fill|..][0] == d[3];
    }
  }

  /** What the button renders. */
  datatype Button =
    | Mobile(classes: string, text: string)
    | Contact(dot: string, heading: string, text: string)
    | Desktop(classes: string, span: string, text: string)

  /** The variant dispatch: `mobile` and `contact` have their own forms,
      every other variant renders the desktop one. The contact form does
      not use `className`. */
  function Render(variant: string, location: string, isActive: bool, className: string): (b: Button)
    ensures b.Mobile? <==> variant == "mobile"
    ensures b.Contact? <==> variant == "contact"
    ensures b.text == LocationName(location)
    ensures b.Contact? ==> b.dot == DotClasses(isActive)
    ensures b.Desktop? ==> EndsWith(b.span, MinWidth(location))
  {
    var text := LocationName(location);
    if variant == "mobile" then
      Mobile("block " + Typography.NavLinkMobile + " " + className, text)
    else if variant == "contact" then
      Contact(DotClasses(isActive), Typography.ContactLocation + " text-2xl", text)
    else
      var span := Typography.FooterLocationDesktop + " inline-block " + MinWidth(location);
      assert span[|span| - |MinWidth(location)|..] == MinWidth(location);
      Desktop("flex items-center space-x-3 group " + className, span, text)
  }
}

// A project of the mobile work list: the category badge on its image, on
// the left or the right by the parity of the id, and the info card that a
// tap on the badge opens and closes when the project has credits to show.
module MobileWorkItem {
  import opened Wrappers
  import opened JsValue
  import opened Strings
  import opened WorkData

  /** `a % b` as JavaScript computes it: the remainder takes the sign of
      the dividend, and the dividend is a whole multiple of the divisor
      away from it. */
  function JsRem(a: real, b: real): (r: real)
    requires b > 0.0
    ensures a >= 0.0 ==> 0.0 <= r < b
    ensures a < 0.0 ==> -b < r <= 0.0
    ensures IsIntegral((a - r) / b)
  {
    if a >= 0.0 then PositiveRem(a, b)
    else
      var r := PositiveRem(-a, b);
      NegDiv(-a - r, b);
      assert a - -r == -(-a - r);
      NegatedIntegral((-a - r) / b);
      -r
  }

  lemma NegatedIntegral(x: real)
    requires IsIntegral(x)
    ensures IsIntegral(-x)
  {
    assert -x == (-(x.Floor)) as real;
  }

  /** The remainder of a dividend that is not negative. */
  function PositiveRem(a: real, b: real): (r: real)
    requires a >= 0.0 && b > 0.0
    ensures 0.0 <= r < b && IsIntegral((a - r) / b)
  {
    var k := (a / b).Floor;
    RemBounds(a, b, k);
    a - k as real * b
  }

  lemma RemBounds(a: real, b: real, k: int)
    requires b > 0.0 && k == (a / b).Floor
    ensures 0.0 <= a - k as real * b < b
    ensures (a - (a - k as real * b)) / b == k as real
  {
    var x, y := a / b, k as real;
    MulDiv(a, b);
    var lo := ScaleLe(y, x, b);
    var hi := ScaleLt(x, y + 1.0, b);
    Distribute(y, b);
    Between(a, lo, hi, y * b, b);
    MulDiv(y, b);
  }

  /** A value between `p` and `p + b` is less than `b` above `p`. */
  lemma Between(a: real, lo: real, hi: real, p: real, b: real)
    requires lo == p && hi == p + b && lo <= a < hi
    ensures 0.0 <= a - p < b
  {
  }

  lemma Distribute(y: real, b: real)
    ensures (y + 1.0) * b == y * b + b
  {
  }

  lemma ScaleLe(y: real, x: real, b: real) returns (p: real)
    requires b > 0.0 && y <= x
    ensures p == y * b && p <= x * b
  {
    p := y * b;
  }

  lemma ScaleLt(x: real, y: real, b: real) returns (p: real)
    requires b > 0.0 && x < y
    ensures p == y * b && x * b < p
  {
    p := y * b;
  }

  lemma NegDiv(y: real, b: real)
    requires b != 0.0
    ensures (-y) / b == -(y / b)
  {
  }

  lemma MulDiv(y: real, b: real)
    requires b != 0.0
    ensures (y * b) / b == y && (y / b) * b == y
  {
  }

  /** `project.id % 2 === 1`: the id read as a number leaves remainder 1.
      A BigInt id would make `%` throw; parsed documents hold none, and
      such a project is placed on the right. */
  predicate OnLeft(id: Option<Value>)
  {
    !(id.Some? && id.value.BigInt?) && ToNumber(id).Some? && JsRem(ToNumber(id).value, 2.0) == 1.0
  }

  /** The badge is on the left exactly for ids that read as positive odd
      whole numbers; negative odd ids have remainder -1, fractional ones a
      fractional remainder, and NaN none. */
  lemma OnLeftIff(id: Option<Value>)
    ensures OnLeft(id) <==> !(id.Some? && id.value.BigInt?) && ToNumber(id).Some?
                            && ToNumber(id).value > 0.0 && IsIntegral(ToNumber(id).value) && ToNumber(id).value.Floor % 2 == 1
  {
    if !(id.Some? && id.value.BigInt?) && ToNumber(id).Some? {
      OddRemainder(ToNumber(id).value);
    }
  }

  lemma OddRemainder(n: real)
    ensures JsRem(n, 2.0) == 1.0 <==> n > 0.0 && IsIntegral(n) && n.Floor % 2 == 1
  {
    if n >= 0.0 {
      var k := (n / 2.0).Floor;
      assert JsRem(n, 2.0) == n - k as real * 2.0;
      if JsRem(n, 2.0) == 1.0 {
        assert n == (2 * k + 1) as real;
        assert n.Floor == 2 * k + 1;
      }
      if n > 0.0 && IsIntegral(n) && n.Floor % 2 == 1 {
        var m := n.Floor / 2;
        assert n == (2 * m + 1) as real;
        assert n / 2.0 == m as real + 0.5;
        assert k == m;
      }
    }
  }

  /** The truthiness of `v.key` (`undefined` when `v` is no object or has
      no such member). */
  predicate HasTruthy(v: Value, key: string)
  {
    var p := Prop(v, key);
    p.Some? && Truthy(p.value)
  }

  /** `content && (content.stylist || content.photographer || content.date)`. */
  predicate HasContent(content: Value)
  {
    Truthy(content) && (HasTruthy(content, "stylist") || HasTruthy(content, "photographer") || HasTruthy(content, "date"))
  }

  /** A document with no credits, or no content at all, has nothing to
      open. */
  lemma NoCreditsNoContent(content: Value)
    requires content.Null? || (content.Obj? && "stylist" !in content.fields &&
      "photographer" !in content.fields && "date" !in content.fields)
    ensures !HasContent(content)
  {
  }

  /** The badge's text: the music-video category on two lines, every other
      category as it is. */
  function Label(category: string): (r: string)
    ensures category != MusicVideo ==> r == category
  {
    if category == MusicVideo then "MUSIC" + "\n" + "VIDEO" else category
  }

  /** The two-line label is the category with its line break back to a
      space; a category without a line break is given back too. */
  lemma LabelRoundTrip(category: string)
    requires '\n' !in category
    ensures ReplaceFirst(Label(category), "\n", " ") == category
  {
    var s := Label(category);
    if category == MusicVideo {
      assert s[5..6] == "\n";
      forall j | 0 <= j < 5 ensures !OccursAt(s, "\n", j) {
        assert s[j..j + 1] == [s[j]];
      }
      ReplaceFirstAt(s, "\n", " ", 5);
      assert s[..5] == "MUSIC" && s[6..] == "VIDEO";
    } else {
      forall i | 0 <= i < |s| ensures !OccursAt(s, "\n", i) {
        assert s[i..i + 1] == [s[i]];
        assert s[i] in category;
      }
    }
  }

  /** The badge as rendered. */
  datatype Badge = Badge(position: string, rotation: int, text: string, preLine: bool, buttonClasses: string, textClasses: string)

  function RenderBadge(project: Project, expanded: bool): (b: Badge)
    ensures b.position == (if OnLeft(project.id) then "left-4" else "right-4")
    ensures b.rotation == (if OnLeft(project.id) then -15 else 15)
    ensures b.text == Label(project.category) && (b.preLine <==> project.category == MusicVideo)
    ensures expanded ==> b.buttonClasses == "bg-studio-bg border-2 border-studio-blue" && b.textClasses == "text-studio-blue"
    ensures !expanded ==> b.buttonClasses == "bg-studio-blue" && b.textClasses == "text-studio-orange"
  {
    Badge(
      if OnLeft(project.id) then "left-4" else "right-4",
      if OnLeft(project.id) then -15 else 15,
      Label(project.category),
      project.category == MusicVideo,
      if expanded then "bg-studio-bg border-2 border-studio-blue" else "bg-studio-blue",
      if expanded then "text-studio-blue" else "text-studio-orange")
  }

  /** `project.mobileImage || project.image || project.src`: the first
      truthy one of the three, else whatever `src` is. */
  function ImageSource(project: Project): (r: Option<Value>)
    ensures "mobileImage" in project.rest && Truthy(project.rest["mobileImage"]) ==> r == Some(project.rest["mobileImage"])
    ensures r.Some? && !Truthy(r.value) ==> "src" in project.rest && r == Some(project.rest["src"])
    ensures r.None? ==> "src" !in project.rest
  {
    var rest := project.rest;
    if "mobileImage" in rest && Truthy(rest["mobileImage"]) then Some(rest["mobileImage"])
    else if "image" in rest && Truthy(rest["image"]) then Some(rest["image"])
    else if "src" in rest then Some(rest["src"])
    else None
  }

  /** The item's state: whether the info card is open. */
  class MobileWorkItemState {
    var expanded: bool

    /** The card starts closed. */
    constructor ()
      ensures !expanded
    {
      expanded := false;
    }

    /** `handleTap`: the card opens or closes only for content with
        credits. */
    method Tap(content: Value)
      modifies this
      ensures HasContent(content) ==> expanded == !old(expanded)
      ensures !HasContent(content) ==> expanded == old(expanded)
    {
      var hasContent := HasContent(content);
      if hasContent {
        expanded := !expanded;
      }
    }
  }
}

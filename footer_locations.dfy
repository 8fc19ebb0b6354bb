// The footer's list of locations: the visible locations in order, each
// turned into the key the location button looks its label up by.
module FooterLocations {
  import opened Strings
  import opened Wrappers
  import opened SiteLocations
  import LocationButton

  /** `name.toLowerCase().replace(/\s+/g, '')`. */
  function LocationKey(name: string): (r: string)
    ensures NoSpace(r) && |r| <= |name|
    ensures forall i :: 0 <= i < |r| ==> !('A' <= r[i] <= 'Z')
  {
    var lower := Lower(name);
    assert forall c :: c in lower ==> !('A' <= c <= 'Z');
    RemoveSpacesMembers(lower);
    RemoveSpaces(lower)
  }

  /** A key is its own key: case and spaces are gone once. */
  lemma LocationKeyIdempotent(name: string)
    ensures LocationKey(LocationKey(name)) == LocationKey(name)
  {
    var k := LocationKey(name);
    LowerUnchanged(k);
    RemoveSpacesUnchanged(k);
  }

  /** The footer's table: `newyork` is the button's `brooklyn`; every other
      key, the table's own two included, passes through. */
  function FooterKey(name: string): (r: string)
    ensures LocationKey(name) == "newyork" ==> r == "brooklyn"
    ensures LocationKey(name) != "newyork" ==> r == LocationKey(name)
  {
    var key := LocationKey(name);
    if key == "newyork" then "brooklyn" else key
  }

  /** What the footer shows. */
  datatype FooterView = Loading | Failed | Buttons(keys: seq<string>)

  /** A loading or failed document short-circuits; otherwise one button per
      visible location, in order, none when the document has no list. */
  function Render(loading: bool, error: bool, locations: Option<seq<Location>>): (v: FooterView)
    ensures v.Loading? <==> loading
    ensures v.Failed? <==> !loading && error
    ensures v.Buttons? ==>
      |v.keys| == |VisibleSorted(locations)| &&
      forall i :: 0 <= i < |v.keys| ==> v.keys[i] == FooterKey(VisibleSorted(locations)[i].name)
    ensures v.Buttons? && locations.None? ==> v.keys == []
  {
    if loading then Loading
    else if error then Failed
    else
      var shown := VisibleSorted(locations);
      Buttons(seq(|shown|, i requires 0 <= i < |shown| => FooterKey(shown[i].name)))
  }

  /** Lower-case ASCII letters are not whitespace. */
  lemma LettersNoSpace(s: string)
    requires forall i :: 0 <= i < |s| ==> 'a' <= s[i] <= 'z'
    ensures NoSpace(s)
  {
  }

  /** Removing the spaces of two space-free words around one space joins
      them. */
  lemma {:induction false} RemoveSpacesAround(a: string, b: string)
    requires NoSpace(a) && NoSpace(b)
    ensures RemoveSpaces(a + " " + b) == a + b
  {
    var t := a + " " + b;
    if a == [] {
      assert t[0] == ' ' && t[1..] == b;
      RemoveSpacesUnchanged(b);
    } else {
      assert t[0] == a[0] && t[1..] == a[1..] + " " + b;
      assert !IsSpace(a[0]);
      RemoveSpacesAround(a[1..], b);
      calc {
        RemoveSpaces(t);
        [a[0]] + RemoveSpaces(t[1..]);
        [a[0]] + (a[1..] + b);
        { assert a == [a[0]] + a[1..]; }
        a + b;
      }
    }
  }

  /** Lower case goes piece by piece. */
  lemma LowerAppend(x: string, y: string)
    ensures Lower(x + y) == Lower(x) + Lower(y)
  {
    var l, r := Lower(x + y), Lower(x) + Lower(y);
    forall i | 0 <= i < |l| ensures l[i] == r[i] {
      if i < |x| {
        assert (x + y)[i] == x[i];
      } else {
        assert (x + y)[i] == y[i - |x|];
      }
    }
  }

  /** Lower case goes word by word. */
  lemma LowerAround(a: string, b: string)
    ensures Lower(a + " " + b) == Lower(a) + " " + Lower(b)
  {
    LowerAppend(a + " ", b);
    LowerAppend(a, " ");
    assert Lower(" ") == " ";
  }

  /** The key of a two-word name. */
  lemma TwoWordKey(a: string, b: string)
    requires forall i :: 0 <= i < |Lower(a)| ==> 'a' <= Lower(a)[i] <= 'z'
    requires forall i :: 0 <= i < |Lower(b)| ==> 'a' <= Lower(b)[i] <= 'z'
    ensures LocationKey(a + " " + b) == Lower(a) + Lower(b)
  {
    LowerAround(a, b);
    LettersNoSpace(Lower(a));
    LettersNoSpace(Lower(b));
    RemoveSpacesAround(Lower(a), Lower(b));
  }

  lemma NewYorkWords()
    ensures Lower("New") == "new" && Lower("York") == "york"
    ensures "New" + " " + "York" == "New York" && "new" + "york" == "newyork"
  {
  }

  /** "New York" has the key `newyork`. */
  lemma NewYorkKey()
    ensures LocationKey("New York") == "newyork"
  {
    NewYorkWords();
    TwoWordKey("New", "York");
  }

  /** The document's New York reaches the button as the `brooklyn` key and
      comes out as NEW YORK. */
  lemma NewYorkLabel()
    ensures FooterKey("New York") == "brooklyn"
    ensures LocationButton.LocationName(FooterKey("New York")) == "NEW YORK"
  {
    NewYorkKey();
  }

  /** The key of a one-word name. */
  lemma OneWordKey(a: string)
    requires forall i :: 0 <= i < |Lower(a)| ==> 'a' <= Lower(a)[i] <= 'z'
    ensures LocationKey(a) == Lower(a)
  {
    LettersNoSpace(Lower(a));
    RemoveSpacesUnchanged(Lower(a));
  }

  lemma LondonWord()
    ensures Lower("London") == "london"
  {
  }

  /** London reaches the button as its own key. */
  lemma LondonLabel()
    ensures FooterKey("London") == "london"
    ensures LocationButton.LocationName(FooterKey("London")) == "LONDON"
  {
    LondonWord();
    OneWordKey("London");
  }
}

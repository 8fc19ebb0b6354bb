// `Array.prototype.filter` on lists, with the facts the client code
// relies on: it keeps exactly the elements that pass, in their order, and
// it distributes over concatenation.
module Sequences {
  function {:induction false} Filter<T(!new)>(s: seq<T>, keep: T -> bool): (r: seq<T>)
    ensures |r| <= |s|
    ensures forall x :: x in r <==> x in s && keep(x)
    ensures forall i :: 0 <= i < |r| ==> keep(r[i])
  {
    if s == [] then []
    else
      var tail := Filter(s[1..], keep);
      assert forall x :: x in s <==> x == s[0] || x in s[1..];
      if keep(s[0]) then [s[0]] + tail else tail
  }

  /** Filtering a concatenation filters each part. */
  lemma {:induction false} FilterAppend<T(!new)>(s: seq<T>, t: seq<T>, keep: T -> bool)
    ensures Filter(s + t, keep) == Filter(s, keep) + Filter(t, keep)
  {
    if s == [] {
      assert s + t == t;
    } else {
      assert (s + t)[1..] == s[1..] + t;
      FilterAppend(s[1..], t, keep);
    }
  }

  /** An element everywhere passing the test is kept as it was: filtering
      then changes nothing. */
  lemma {:induction false} FilterAll<T(!new)>(s: seq<T>, keep: T -> bool)
    requires forall i :: 0 <= i < |s| ==> keep(s[i])
    ensures Filter(s, keep) == s
  {
    if s != [] {
      FilterAll(s[1..], keep);
    }
  }

  /** A stricter test on the result of a looser one keeps what the
      stricter test alone keeps. */
  lemma {:induction false} FilterTwice<T(!new)>(s: seq<T>, loose: T -> bool, strict: T -> bool)
    requires forall x :: strict(x) ==> loose(x)
    ensures Filter(Filter(s, loose), strict) == Filter(s, strict)
  {
    if s != [] {
      FilterTwice(s[1..], loose, strict);
    }
  }
}

// `(...classes) => classes.filter(Boolean).join(' ')`: the helper the
// typography and animation constants use to combine class lists. An
// argument is a string or an absent value (`undefined`, `null`, `false`);
// the empty string and the absent values are dropped.
module ClassLists {
  import opened Wrappers
  import opened Strings

  /** `Boolean(arg)` for the arguments the helper is given. */
  predicate Kept(arg: Option<string>)
  {
    arg.Some? && arg.value != ""
  }

  /** The texts of the arguments that pass `filter(Boolean)`, in order. */
  function KeptTexts(args: seq<Option<string>>): (r: seq<string>)
    ensures |r| <= |args|
    ensures forall i :: 0 <= i < |r| ==> r[i] != ""
    ensures forall t :: t in r <==> Some(t) in args && t != ""
  {
    if args == [] then []
    else
      var rest := KeptTexts(args[1..]);
      assert forall a :: a in args <==> a == args[0] || a in args[1..];
      if Kept(args[0]) then [args[0].value] + rest else rest
  }

  /** The combined class list. */
  function Combine(args: seq<Option<string>>): string
  {
    Join(KeptTexts(args), " ")
  }

  function TotalLength(parts: seq<string>): nat
  {
    if parts == [] then 0 else |parts[0]| + TotalLength(parts[1..])
  }

  /** A join is as long as its parts plus one separator between each two
      neighbours. */
  lemma {:induction false} JoinLength(parts: seq<string>, sep: string)
    ensures |Join(parts, sep)| == TotalLength(parts) + (if parts == [] then 0 else (|parts| - 1) * |sep|)
  {
    if |parts| == 1 {
      assert parts[1..] == [];
    } else if |parts| > 1 {
      JoinLength(parts[1..], sep);
    }
  }

  /** Joining two non-empty lists puts one separator between their joins. */
  lemma {:induction false} JoinAppend(a: seq<string>, b: seq<string>, sep: string)
    requires a != [] && b != []
    ensures Join(a + b, sep) == Join(a, sep) + sep + Join(b, sep)
  {
    if |a| == 1 {
      assert (a + b)[1..] == b;
    } else {
      assert (a + b)[1..] == a[1..] + b;
      JoinAppend(a[1..], b, sep);
    }
  }

  lemma {:induction false} KeptAppend(a: seq<Option<string>>, b: seq<Option<string>>)
    ensures KeptTexts(a + b) == KeptTexts(a) + KeptTexts(b)
  {
    if a == [] {
      assert a + b == b;
    } else {
      assert (a + b)[1..] == a[1..] + b;
      KeptAppend(a[1..], b);
    }
  }

  /** The result is empty exactly when no argument is a non-empty string. */
  lemma CombineEmptyIff(args: seq<Option<string>>)
    ensures Combine(args) == "" <==> forall i :: 0 <= i < |args| ==> !Kept(args[i])
  {
    var parts := KeptTexts(args);
    JoinLength(parts, " ");
    if parts != [] {
      assert TotalLength(parts) >= |parts[0]| > 0;
      assert parts[0] in parts;
      var i :| 0 <= i < |args| && args[i] == Some(parts[0]);
      assert Kept(args[i]);
    } else {
      forall i | 0 <= i < |args| ensures !Kept(args[i]) {
        assert args[i] in args;
      }
    }
  }

  /** Combining two argument lists that both keep something gives their
      combinations with one space between; a list that keeps nothing adds
      nothing, not even a space. */
  lemma CombineAppend(a: seq<Option<string>>, b: seq<Option<string>>)
    ensures KeptTexts(a) != [] && KeptTexts(b) != [] ==> Combine(a + b) == Combine(a) + " " + Combine(b)
    ensures KeptTexts(a) == [] ==> Combine(a + b) == Combine(b)
    ensures KeptTexts(b) == [] ==> Combine(a + b) == Combine(a)
  {
    KeptAppend(a, b);
    if KeptTexts(a) != [] && KeptTexts(b) != [] {
      JoinAppend(KeptTexts(a), KeptTexts(b), " ");
    }
    assert [] + KeptTexts(b) == KeptTexts(b);
    assert KeptTexts(a) + [] == KeptTexts(a);
  }

  /** A dropped argument leaves no trace, wherever it is. */
  lemma CombineDrops(a: seq<Option<string>>, x: Option<string>, b: seq<Option<string>>)
    requires !Kept(x)
    ensures Combine(a + [x] + b) == Combine(a + b)
  {
    KeptAppend(a + [x], b);
    KeptAppend(a, [x]);
    KeptAppend(a, b);
    assert KeptTexts([x]) == [];
    assert KeptTexts(a) + [] == KeptTexts(a);
  }

  /** Two non-empty strings combine to the first, a space, and the second. */
  lemma CombinePair(x: string, y: string)
    requires x != "" && y != ""
    ensures Combine([Some(x), Some(y)]) == x + " " + y
  {
    assert [Some(x), Some(y)][1..] == [Some(y)];
    assert [Some(y)][1..] == [];
    assert KeptTexts([Some(y)]) == [y];
    assert KeptTexts([Some(x), Some(y)]) == [x, y];
    assert [x, y][1..] == [y];
    assert Join([y], " ") == y;
    assert Join([x, y], " ") == x + " " + Join([y], " ");
  }
}

// The carousel hook: a current index over `items.length` slides that the
// next and previous buttons move (wrapping around when `loop` is set,
// stopping at the ends otherwise), that a dot can set directly, and that
// an interval timer advances. With no items the index arithmetic of the
// hook divides by zero, which JavaScript answers with NaN.
module Carousel {
  import opened Wrappers
  import opened JsValue

  /** A value of `currentIndex`: an integer, or NaN. */
  datatype Slot = At(i: int) | NaN

  /** JavaScript's `a % n` on integers: NaN for `n == 0`, otherwise the
      remainder that takes the sign of `a` (it truncates toward zero). */
  function Rem(a: int, n: nat): (r: Slot)
    ensures n == 0 <==> r.NaN?
    ensures r.At? ==> 0 < r.i + n && r.i < n && (a >= 0 ==> r.i >= 0)
    ensures n > 0 && 0 <= a < 2 * n ==> r == At(if a < n then a else a - n)
  {
    if n == 0 then NaN
    else if a >= 0 then (ModBelowTwice(a, n); At(a % n))
    else At(-((-a) % n))
  }

  /** The remainder of a number below twice the divisor. */
  lemma ModBelowTwice(a: nat, n: nat)
    requires n > 0
    ensures a < 2 * n ==> a % n == (if a < n then a else a - n)
  {
    if a < n {
      assert a == n * 0 + a;
    } else if a < 2 * n {
      assert a == n * 1 + (a - n);
    }
  }

  function Min(a: int, b: int): int { if a <= b then a else b }

  function Max(a: int, b: int): int { if a >= b then a else b }

  /** The update of `goToNext` (and, with `loop` set, of the timer). */
  function Next(s: Slot, n: nat, loop: bool): Slot
  {
    match s
    case NaN => NaN
    case At(p) => if loop then Rem(p + 1, n) else At(Min(p + 1, n - 1))
  }

  /** The update of `goToPrevious`. */
  function Previous(s: Slot, n: nat, loop: bool): Slot
  {
    match s
    case NaN => NaN
    case At(p) => if loop then Rem(p - 1 + n, n) else At(Max(p - 1, 0))
  }

  /** The update of `goToSlide(k)`: only an index of a slide is taken. */
  function Slide(s: Slot, n: nat, k: int): Slot
  {
    if 0 <= k < n then At(k) else s
  }

  /** One tick of the autoplay interval, which only runs with `autoPlay`
      set and more than one item. */
  function Tick(s: Slot, n: nat, autoPlay: bool): Slot
  {
    if autoPlay && n > 1 then Next(s, n, true) else s
  }

  /** An index of one of the `n` slides. */
  predicate InRange(s: Slot, n: nat)
  {
    s.At? && 0 <= s.i < n
  }

  /** A boolean option: its default when it is absent, else its truthiness. */
  function OptionFlag(options: Value, key: string, default: bool): bool
  {
    match Prop(options, key)
    case None => default
    case Some(v) => Truthy(v)
  }

  /** `useCarousel(items, options)`: the state of one carousel. */
  class CarouselState {
    const count: nat
    const autoPlay: bool
    const loop: bool
    var index: Slot

    /** With some slides, the index is always one of them. */
    predicate Valid()
      reads this
    {
      count > 0 ==> InRange(index, count)
    }

    constructor (count: nat, options: Value)
      ensures this.count == count && index == At(0) && Valid()
      ensures autoPlay == OptionFlag(options, "autoPlay", true) && loop == OptionFlag(options, "loop", true)
    {
      this.count := count;
      this.autoPlay := OptionFlag(options, "autoPlay", true);
      this.loop := OptionFlag(options, "loop", true);
      index := At(0);
    }

    method GoToNext()
      requires Valid()
      modifies this
      ensures index == Next(old(index), count, loop) && Valid()
    {
      if index.At? {
        if loop {
          index := Rem(index.i + 1, count);
        } else {
          index := At(Min(index.i + 1, count - 1));
        }
      }
      NextInRange(old(index), count, loop);
    }

    method GoToPrevious()
      requires Valid()
      modifies this
      ensures index == Previous(old(index), count, loop) && Valid()
    {
      if index.At? {
        if loop {
          index := Rem(index.i - 1 + count, count);
        } else {
          index := At(Max(index.i - 1, 0));
        }
      }
      PreviousInRange(old(index), count, loop);
    }

    method GoToSlide(k: int)
      requires Valid()
      modifies this
      ensures index == Slide(old(index), count, k) && Valid()
    {
      if k >= 0 && k < count {
        index := At(k);
      }
    }

    /** The callback of the autoplay interval. */
    method AutoPlayStep()
      requires Valid()
      modifies this
      ensures index == Tick(old(index), count, autoPlay) && Valid()
    {
      if autoPlay && count > 1 {
        if index.At? {
          index := Rem(index.i + 1, count);
        }
        NextInRange(old(index), count, true);
      }
    }

    /** `isFirst`: the first slide is shown. */
    function IsFirst(): (r: bool)
      reads this
      ensures r ==> count == 0 || InRange(index, count)
    {
      index == At(0)
    }

    /** `isLast`: the last slide is shown. */
    function IsLast(): (r: bool)
      reads this
      ensures r && count > 0 ==> InRange(index, count)
    {
      index == At(count - 1)
    }
  }

  // ---- What the carousel promises ----

  /** Next keeps an index of a slide an index of a slide. */
  lemma NextInRange(s: Slot, n: nat, loop: bool)
    requires n > 0 ==> InRange(s, n)
    ensures n > 0 ==> InRange(Next(s, n, loop), n)
  {
  }

  lemma PreviousInRange(s: Slot, n: nat, loop: bool)
    requires n > 0 ==> InRange(s, n)
    ensures n > 0 ==> InRange(Previous(s, n, loop), n)
  {
  }

  /** Looping, previous undoes next and next undoes previous. */
  lemma LoopRoundTrip(i: int, n: nat)
    requires 0 <= i < n
    ensures Previous(Next(At(i), n, true), n, true) == At(i)
    ensures Next(Previous(At(i), n, true), n, true) == At(i)
  {
    if i + 1 < n {
      assert Next(At(i), n, true) == At(i + 1);
    } else {
      assert Next(At(i), n, true) == At(0);
      assert Rem(0 - 1 + n, n) == At(n - 1);
    }
    if i > 0 {
      assert Previous(At(i), n, true) == At(i - 1);
    } else {
      assert Previous(At(i), n, true) == At(n - 1);
    }
  }

  /** Looping, the last slide is followed by the first and the first is
      preceded by the last. */
  lemma LoopWraps(n: nat)
    requires n > 0
    ensures Next(At(n - 1), n, true) == At(0)
    ensures Previous(At(0), n, true) == At(n - 1)
  {
  }

  /** Without looping, next stays put exactly on the last slide and
      previous exactly on the first; anywhere else they move by one. */
  lemma Clamped(i: int, n: nat)
    requires 0 <= i < n
    ensures Next(At(i), n, false) == (if i == n - 1 then At(i) else At(i + 1))
    ensures Previous(At(i), n, false) == (if i == 0 then At(i) else At(i - 1))
  {
  }

  /** The timer moves the index exactly when it runs, as a looping next. */
  lemma TickMoves(i: int, n: nat, autoPlay: bool)
    requires 0 <= i < n
    ensures Tick(At(i), n, autoPlay) != At(i) <==> autoPlay && n > 1
    ensures autoPlay && n > 1 ==> Tick(At(i), n, autoPlay) == Next(At(i), n, true)
  {
    if autoPlay && n > 1 {
      assert Next(At(i), n, true) == Rem(i + 1, n);
    }
  }

  /** A slide index is taken as it is; anything else changes nothing. */
  lemma SlideIff(s: Slot, n: nat, k: int)
    ensures 0 <= k < n ==> Slide(s, n, k) == At(k)
    ensures !(0 <= k < n) ==> Slide(s, n, k) == s
    ensures InRange(Slide(s, n, k), n) <==> 0 <= k < n || InRange(s, n)
  {
  }

  /** With no items, looping next and previous give NaN, and NaN never
      leaves: the carousel has no slide to stand on. */
  lemma EmptyGivesNaN(s: Slot)
    ensures Next(s, 0, true) == NaN && Previous(s, 0, true) == NaN
    ensures Next(NaN, 0, false) == NaN && Previous(NaN, 0, false) == NaN
    ensures Next(At(0), 0, false) == At(-1) && Previous(At(0), 0, false) == At(0)
  {
  }
}

// The animation constants: the transition, state and reveal class lists
// that the common animation combinations build on, those combinations, and
// the polaroid entry duration that scripts read as a number.
module Animations {
  import opened Wrappers
  import opened Strings
  import opened ClassLists

  // Transitions.
  const Fast: string := "transition-all duration-200"
  const Medium: string := "transition-all duration-300"
  const Colors: string := "transition-colors duration-300"
  const Transform: string := "transition-transform duration-300"
  const EaseOut: string := "transition-all duration-300 ease-out"
  const Button: string := "transition-all duration-200 ease-out"
  const Nav: string := "transition-all duration-200 ease-out"
  const HoverGrow: string := "transition-transform duration-300 " + "hover:scale-105"
  // The polaroid entry, whose duration sits between the brackets.
  const PolaroidEntry: string := "transition-all duration-[" + "2400" + "ms] ease-out"

  // Reveal, class and state entries.
  const RevealUp: string := "transform translate-y-8 opacity-0 " + "transition-all duration-600"
  const FadeIn: string := "animate-[fadeIn_0.6s_ease-out]"
  const FocusRing: string := "focus:ring-2 focus:ring-studio-orange " + "focus:ring-offset-2"

  /** `durations.polaroid`, in milliseconds. */
  const PolaroidDuration: nat := 2400

  /** The entries of `COMMON_ANIMATIONS`. */
  datatype Animation =
    ButtonHover | CardHover | FadeInUp | SmoothTransform | FormInput | FormButton | NavLink | NavButton

  /** The first class list a combination is made of. */
  function First(a: Animation): string
  {
    match a
    case ButtonHover => Button
    case CardHover => Medium
    case FadeInUp => RevealUp
    case SmoothTransform => Transform
    case FormInput => Fast
    case FormButton => Button
    case NavLink => Colors
    case NavButton => Nav
  }

  /** The second. */
  function Second(a: Animation): string
  {
    match a
    case ButtonHover => FocusRing
    case CardHover => HoverGrow
    case FadeInUp => FadeIn
    case SmoothTransform => EaseOut
    case FormInput => FocusRing
    case FormButton => "hover:bg-studio-orange"
    case NavLink => "hover:text-studio-orange"
    case NavButton => HoverGrow
  }

  /** The class list of a combination, as the combiner builds it. */
  function Classes(a: Animation): string
  {
    Combine([Some(First(a)), Some(Second(a))])
  }

  /** Every combination is its two parts with one space between. */
  lemma ClassesConcat(a: Animation)
    ensures Classes(a) == First(a) + " " + Second(a)
  {
    assert |First(a)| > 0 && |Second(a)| > 0;
    CombinePair(First(a), Second(a));
  }

  /** The hover style of a button is the button transition with the focus
      ring. */
  lemma ButtonHoverClasses()
    ensures Classes(ButtonHover) == Button + " " + FocusRing
  {
    ClassesConcat(ButtonHover);
  }

  /** A form button is the button transition turning orange on hover. */
  lemma FormButtonClasses()
    ensures Classes(FormButton) == Button + " hover:bg-studio-orange"
  {
    ClassesConcat(FormButton);
  }

  /** The number scripts use for the polaroid entry is the one between the
      brackets of its class list: the entry lasts `duration-[<n>ms]`. */
  lemma PolaroidDurationAgrees()
    ensures PolaroidEntry == "transition-all duration-[" + NatText(PolaroidDuration) + "ms] ease-out"
  {
    assert NatText(2) == "2";
    assert NatText(24) == NatText(2) + "4";
    assert NatText(240) == NatText(24) + "0";
    assert NatText(2400) == NatText(240) + "0";
  }
}

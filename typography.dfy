// The typography constants: the class lists of the text styles that the
// common combinations build on, and those combinations, each made with the
// class-list combiner from a style and a size or colour modifier.
module Typography {
  import opened Wrappers
  import opened ClassLists

  // The styles the combinations use.
  const HeadingPrimary: string := "font-proxima-wide font-bold " + "text-studio-blue uppercase"
  const HeadingSecondary: string := "font-proxima-wide font-bold " + "text-studio-blue"
  const BodyText: string := "font-proxima text-studio-blue"
  const BodyTextSmall: string := "font-proxima text-studio-blue text-sm"

  // The styles of the location buttons.
  const NavLinkMobile: string := "font-proxima-wide font-bold " + "text-white text-2xl tracking-[3%] uppercase"
  const ContactLocation: string := "font-proxima-wide font-bold " + "text-white uppercase tracking-wide"
  const FooterLocationDesktop: string :=
    "font-proxima-wide font-bold " + "group-hover:font-normal text-white " + "text-[40px] leading-[110%] "
    + "tracking-[6%] uppercase " + "transition-all duration-200"

  /** The entries of `COMMON_COMBINATIONS`. */
  datatype Combination = PageTitle | SectionTitle | CardTitle | Description | Caption

  /** The style a combination starts from. */
  function Style(c: Combination): string
  {
    match c
    case PageTitle => HeadingPrimary
    case SectionTitle => HeadingPrimary
    case CardTitle => HeadingSecondary
    case Description => BodyText
    case Caption => BodyTextSmall
  }

  /** The modifier a combination adds. */
  function Modifier(c: Combination): string
  {
    match c
    case PageTitle => "text-4xl md:text-5xl"
    case SectionTitle => "text-2xl md:text-3xl"
    case CardTitle => "text-xl"
    case Description => "text-base"
    case Caption => "text-gray-600"
  }

  /** The class list of a combination, as the combiner builds it. */
  function Classes(c: Combination): string
  {
    Combine([Some(Style(c)), Some(Modifier(c))])
  }

  /** Every combination is its style, one space and its modifier. */
  lemma ClassesConcat(c: Combination)
    ensures Classes(c) == Style(c) + " " + Modifier(c)
  {
    assert |Style(c)| > 0 && |Modifier(c)| > 0;
    CombinePair(Style(c), Modifier(c));
  }

  /** The page title is the primary heading at the two title sizes. */
  lemma PageTitleClasses()
    ensures Classes(PageTitle) == HeadingPrimary + " text-4xl md:text-5xl"
  {
    ClassesConcat(PageTitle);
  }
}

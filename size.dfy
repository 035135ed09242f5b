/** The three pizza sizes, each with a display name and a price modifier (VND). */
module Sizes {

  datatype Size = S | M | L

  /** `getDisplayName()`: one of the three row names; "Small" is the size
      without surcharge. */
  function DisplayName(s: Size): (r: string)
    ensures r == "Small" || r == "Medium" || r == "Large"
    ensures r == "Small" <==> PriceModifier(s) == 0
  {
    match s
    case S => "Small"
    case M => "Medium"
    case L => "Large"
  }

  function PriceModifier(s: Size): (r: int)
    ensures r >= 0
    ensures r == 0 <==> s == S
  {
    match s
    case S => 0
    case M => 15_000
    case L => 30_000
  }

  /** `Size.toString()` is overridden to give the display name. */
  function ToString(s: Size): (r: string)
    ensures r == DisplayName(s)
  {
    DisplayName(s)
  }

  /** Position of a size in declaration order S, M, L. */
  function Ordinal(s: Size): nat
  {
    match s
    case S => 0
    case M => 1
    case L => 2
  }

  /** The table rows exactly as declared. */
  lemma SizeTable()
    ensures PriceModifier(S) == 0 && DisplayName(S) == "Small"
    ensures PriceModifier(M) == 15_000 && DisplayName(M) == "Medium"
    ensures PriceModifier(L) == 30_000 && DisplayName(L) == "Large"
  {
  }

  /** A larger size never costs less; modifiers grow strictly, S < M < L. */
  lemma ModifierStrictlyIncreasing(a: Size, b: Size)
    ensures Ordinal(a) < Ordinal(b) <==> PriceModifier(a) < PriceModifier(b)
  {
  }

  /** Different sizes have different display names, so the description tells the size. */
  lemma DisplayNameInjective(a: Size, b: Size)
    ensures DisplayName(a) == DisplayName(b) <==> a == b
  {
  }
}

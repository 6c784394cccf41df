/** The pricing rules of the storefront: pure functions of the three selections
    (discount active, reception venue type, photo count). All amounts are whole
    dollars; the two `Math.round` calls of the page are written exactly in
    integer arithmetic. */
module PriceRules {

  datatype Option<T> = None | Some(value: T)

  /** What a price element shows as its current value: a dollar amount, or the
      word "Included" (the Bridals card under the promo code). */
  datatype Amount = Dollars(n: int) | Included

  /** A rendered price: the struck-through original (only when discounted) and
      the current value. */
  datatype PriceDisplay = PriceDisplay(original: Option<int>, current: Amount)

  /** A service card of the page: its `data-base` price and whether its heading
      is "Bridals". */
  datatype Card = Card(base: int, isBridals: bool)

  /** The sign of the slider hint: a surcharge, a saving, or the base rate. */
  datatype Hint = Surcharge | Savings | BaseRate

  const BaseCount: int := 700
  const MinReception: int := 300
  const PackageFull: int := 4000
  const PackageDiscounted: int := 2000
  const IndoorType: string := "indoor"

  /** `Math.round(n / 2)`: rounds half toward positive infinity, so it is the
      unique integer r with r - 1/2 <= n/2 < r + 1/2. */
  function RoundHalfOf(n: int): (r: int)
    ensures 2 * r - 1 <= n < 2 * r + 1
  {
    (n + 1) / 2
  }

  lemma RoundHalfOfUnique(n: int, r: int)
    requires 2 * r - 1 <= n < 2 * r + 1
    ensures r == RoundHalfOf(n)
  {
  }

  /** The reception base price, a table keyed by discount and venue. Any type
      other than "indoor" is priced as outdoor. */
  function ReceptionBasePrice(discountActive: bool, receptionType: string): (r: int)
    ensures receptionType == IndoorType ==> r == (if discountActive then 1400 else 2000)
    ensures receptionType != IndoorType ==> r == (if discountActive then 1050 else 1500)
  {
    if discountActive then
      (if receptionType == IndoorType then 1400 else 1050)
    else
      (if receptionType == IndoorType then 2000 else 1500)
  }

  /** The undiscounted reception base, used for the struck-through original. */
  function FullReceptionBase(receptionType: string): (r: int)
    ensures r == ReceptionBasePrice(false, receptionType)
  {
    if receptionType == IndoorType then 2000 else 1500
  }

  /** The dollar adjustment for delivering `count` photos instead of 700:
      $2 per photo above, $2 (discounted) or $1.50 (rounded) per photo below. */
  function PhotoAdjustment(discountActive: bool, count: int): (adj: int)
    ensures count == BaseCount ==> adj == 0
    ensures count > BaseCount ==> adj == 2 * (count - BaseCount)
    ensures count < BaseCount ==> adj < 0
    ensures count < BaseCount && discountActive ==> adj == 2 * (count - BaseCount)
    ensures count < BaseCount && !discountActive ==>
      2 * adj - 1 <= 3 * (count - BaseCount) < 2 * adj + 1
  {
    var diff := count - BaseCount;
    if diff == 0 then 0
    else if diff > 0 then 2 * diff
    else if discountActive then 2 * diff
    else RoundHalfOf(3 * diff)
  }

  /** The current reception price: base plus adjustment, never below $300. */
  function ReceptionTotal(discountActive: bool, receptionType: string, count: int): (total: int)
    ensures total >= MinReception
    ensures total >= ReceptionBasePrice(discountActive, receptionType) + PhotoAdjustment(discountActive, count)
    ensures total == MinReception ||
            total == ReceptionBasePrice(discountActive, receptionType) + PhotoAdjustment(discountActive, count)
  {
    var total := ReceptionBasePrice(discountActive, receptionType) + PhotoAdjustment(discountActive, count);
    if total < MinReception then MinReception else total
  }

  /** The reception card as rendered: when discounted, the original is the
      undiscounted base plus the (discounted) adjustment, without the floor. */
  function ReceptionDisplay(discountActive: bool, receptionType: string, count: int): (d: PriceDisplay)
    ensures d.current == Dollars(ReceptionTotal(discountActive, receptionType, count))
    ensures d.original.Some? <==> discountActive
    ensures discountActive ==>
      d.original == Some(FullReceptionBase(receptionType) + PhotoAdjustment(true, count))
  {
    var total := ReceptionTotal(discountActive, receptionType, count);
    if discountActive then
      PriceDisplay(Some(FullReceptionBase(receptionType) + PhotoAdjustment(true, count)), Dollars(total))
    else
      PriceDisplay(None, Dollars(total))
  }

  /** A non-reception card as rendered. */
  function CardDisplay(card: Card, discountActive: bool): (d: PriceDisplay)
    ensures !discountActive ==> d == PriceDisplay(None, Dollars(card.base))
    ensures discountActive ==> d.original == Some(card.base)
    ensures discountActive && card.isBridals ==> d.current == Included
    ensures discountActive && !card.isBridals ==>
      d.current.Dollars? && 2 * d.current.n - 1 <= card.base < 2 * d.current.n + 1
  {
    if discountActive then
      PriceDisplay(Some(card.base), if card.isBridals then Included else Dollars(RoundHalfOf(card.base)))
    else
      PriceDisplay(None, Dollars(card.base))
  }

  /** Every card of `cards` as rendered, in order. */
  function CardsDisplay(cards: seq<Card>, discountActive: bool): (ds: seq<PriceDisplay>)
    ensures |ds| == |cards|
    ensures forall i :: 0 <= i < |cards| ==> ds[i] == CardDisplay(cards[i], discountActive)
  {
    seq(|cards|, i requires 0 <= i < |cards| => CardDisplay(cards[i], discountActive))
  }

  /** The package card: a fixed $4,000, or $4,000 struck through and $2,000. */
  function PackageDisplay(discountActive: bool): (d: PriceDisplay)
    ensures d.current == Dollars(if discountActive then PackageDiscounted else PackageFull)
    ensures discountActive <==> d.original == Some(PackageFull)
    ensures !discountActive <==> d.original == None
  {
    if discountActive then PriceDisplay(Some(PackageFull), Dollars(PackageDiscounted))
    else PriceDisplay(None, Dollars(PackageFull))
  }

  /** The sign of the slider hint for an adjustment. */
  function HintFor(adj: int): (h: Hint)
    ensures h == Surcharge <==> adj > 0
    ensures h == Savings <==> adj < 0
    ensures h == BaseRate <==> adj == 0
  {
    if adj > 0 then Surcharge else if adj < 0 then Savings else BaseRate
  }

  // ---------- Properties of the rules ----------

  /** The reception base table, entry by entry. */
  lemma ReceptionBaseTable()
    ensures ReceptionBasePrice(false, "indoor") == 2000
    ensures ReceptionBasePrice(false, "outdoor") == 1500
    ensures ReceptionBasePrice(true, "indoor") == 1400
    ensures ReceptionBasePrice(true, "outdoor") == 1050
  {
  }

  /** The discounted base is 70% of the undiscounted one, and the undiscounted
      base is the one struck through on the reception card. */
  lemma DiscountedBaseIsSeventyPercent(receptionType: string)
    ensures 10 * ReceptionBasePrice(true, receptionType) == 7 * ReceptionBasePrice(false, receptionType)
    ensures ReceptionBasePrice(false, receptionType) == FullReceptionBase(receptionType)
  {
  }

  /** Above the baseline the adjustment does not depend on the discount. */
  lemma SurchargeIndependentOfDiscount(count: int)
    requires count >= BaseCount
    ensures PhotoAdjustment(true, count) == PhotoAdjustment(false, count) == 2 * (count - BaseCount)
  {
  }

  /** The discount never makes the adjustment larger: below the baseline it is
      strictly smaller, elsewhere equal. */
  lemma DiscountNeverRaisesAdjustment(count: int)
    ensures PhotoAdjustment(true, count) <= PhotoAdjustment(false, count)
    ensures PhotoAdjustment(true, count) < PhotoAdjustment(false, count) <==> count < BaseCount
  {
  }

  /** More photos never cost less. */
  lemma AdjustmentMonotone(discountActive: bool, c1: int, c2: int)
    requires c1 <= c2
    ensures PhotoAdjustment(discountActive, c1) <= PhotoAdjustment(discountActive, c2)
  {
  }

  /** The hint's sign depends only on the photo count, never on the discount. */
  lemma HintIndependentOfDiscount(count: int)
    ensures HintFor(PhotoAdjustment(true, count)) == HintFor(PhotoAdjustment(false, count))
    ensures HintFor(PhotoAdjustment(true, count)) ==
      (if count > BaseCount then Surcharge else if count < BaseCount then Savings else BaseRate)
  {
  }

  /** Every venue type other than "indoor" is priced as outdoor. */
  lemma NonIndoorPricedAsOutdoor(discountActive: bool, receptionType: string)
    requires receptionType != IndoorType
    ensures ReceptionBasePrice(discountActive, receptionType) == ReceptionBasePrice(discountActive, "outdoor")
    ensures FullReceptionBase(receptionType) == FullReceptionBase("outdoor")
  {
  }

  /** Worked values of the adjustment. */
  lemma AdjustmentExamples()
    ensures PhotoAdjustment(false, 700) == 0 && PhotoAdjustment(true, 700) == 0
    ensures PhotoAdjustment(false, 900) == 400 && PhotoAdjustment(true, 900) == 400
    ensures PhotoAdjustment(false, 500) == -300 && PhotoAdjustment(true, 500) == -400
    ensures PhotoAdjustment(false, 699) == -1
  {
  }

  /** Worked values of the reception total. */
  lemma ReceptionTotalExamples()
    ensures ReceptionTotal(false, "indoor", 700) == 2000
    ensures ReceptionTotal(true, "indoor", 700) == 1400
    ensures ReceptionTotal(true, "outdoor", 100) == 300
    ensures ReceptionTotal(false, "outdoor", 300) == 900
  {
  }

  /** The struck-through reception original is at least the current price
      exactly when the unclamped undiscounted total reaches $300; the current
      price alone is floored. */
  lemma ReceptionOriginalVersusCurrent(receptionType: string, count: int)
    ensures var d := ReceptionDisplay(true, receptionType, count);
      d.original.Some? && d.current.Dollars? &&
      (d.original.value >= d.current.n <==> FullReceptionBase(receptionType) + PhotoAdjustment(true, count) >= MinReception)
  {
  }

  /** For an outdoor reception with fewer than 100 photos the struck-through
      original is below the price actually charged. */
  lemma ReceptionOriginalBelowCurrentExample()
    ensures ReceptionDisplay(true, "outdoor", 50) == PriceDisplay(Some(200), Dollars(300))
  {
  }

  /** The struck-through reception original is the price shown without the
      code exactly when at least 700 photos are chosen; below that it applies
      the discounted $2 rate to the undiscounted base and so is lower. */
  lemma ReceptionOriginalIsNotUndiscountedPrice(receptionType: string, count: int)
    ensures (ReceptionDisplay(true, receptionType, count).original ==
             Some(ReceptionTotal(false, receptionType, count))) <==> count >= BaseCount
    ensures count < BaseCount ==>
      ReceptionDisplay(true, receptionType, count).original.value < ReceptionTotal(false, receptionType, count)
  {
  }

  /** At 500 outdoor photos the original is $1,100 while the page without
      the code shows $1,200. */
  lemma ReceptionOriginalIsNotUndiscountedPriceExample()
    ensures ReceptionDisplay(true, "outdoor", 500).original == Some(1100)
    ensures ReceptionDisplay(false, "outdoor", 500).current == Dollars(1200)
  {
  }

  /** A discounted non-Bridals card costs half its base rounded up, never more
      than the base it strikes through (for non-negative bases). */
  lemma CardDiscountHalves(card: Card)
    requires !card.isBridals && card.base >= 0
    ensures var d := CardDisplay(card, true);
      d.current.Dollars? && d.original == Some(card.base) &&
      0 <= d.current.n <= card.base && card.base <= 2 * d.current.n
  {
  }

  /** The Bridals special case and the halving rule on a $200 card. */
  lemma CardExamples()
    ensures CardDisplay(Card(200, true), true) == PriceDisplay(Some(200), Included)
    ensures CardDisplay(Card(200, false), true) == PriceDisplay(Some(200), Dollars(100))
    ensures CardDisplay(Card(199, false), true) == PriceDisplay(Some(199), Dollars(100))
    ensures CardDisplay(Card(200, true), false) == PriceDisplay(None, Dollars(200))
  {
  }
}

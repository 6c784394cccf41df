/** The pricing configurator of the storefront page: the selection state
    (discount active, reception type, photo count), the three actions that
    change it, and the render passes that repaint the price elements. */
module Storefront {
  import opened PriceRules
  import PromoCode

  /** The selection state as a value. */
  datatype Selection = Selection(discountActive: bool, receptionType: string, photoCount: int)

  /** The message shown under the promo-code field. */
  datatype Message = NoMessage | CodeApplied | CodeInvalid

  const InitialSelection: Selection := Selection(false, IndoorType, BaseCount)

  /** Submitting a promo code: the discount is on exactly when the code is
      accepted; the other selections are kept. */
  function SubmitCode(s: Selection, input: string): (t: Selection)
    ensures t.discountActive <==> PromoCode.IsAccepted(input)
    ensures t.receptionType == s.receptionType && t.photoCount == s.photoCount
  {
    s.(discountActive := PromoCode.IsAccepted(input))
  }

  /** Clicking a venue toggle: only the reception type changes. */
  function SelectReceptionType(s: Selection, receptionType: string): (t: Selection)
    ensures t.receptionType == receptionType
    ensures t.discountActive == s.discountActive && t.photoCount == s.photoCount
  {
    s.(receptionType := receptionType)
  }

  /** Moving the slider: only the photo count changes. */
  function SetPhotoCount(s: Selection, count: int): (t: Selection)
    ensures t.photoCount == count
    ensures t.discountActive == s.discountActive && t.receptionType == s.receptionType
  {
    s.(photoCount := count)
  }

  /** The `active` flag of each venue toggle after selecting `receptionType`. */
  function ToggleFlags(types: seq<string>, receptionType: string): (flags: seq<bool>)
    ensures |flags| == |types|
    ensures forall i :: 0 <= i < |types| ==> (flags[i] <==> types[i] == receptionType)
  {
    seq(|types|, i requires 0 <= i < |types| => types[i] == receptionType)
  }

  /** How many flags are set. */
  function CountSet(flags: seq<bool>): (n: nat)
    ensures n <= |flags|
  {
    if flags == [] then 0 else (if flags[0] then 1 else 0) + CountSet(flags[1..])
  }

  predicate Distinct(types: seq<string>) {
    forall i, j :: 0 <= i < j < |types| ==> types[i] != types[j]
  }

  // ---------- Properties of the transitions ----------

  /** Only the latest submitted code matters: a later code overrides an
      earlier one, so an invalid code revokes a valid one. */
  lemma LatestCodeWins(s: Selection, first: string, second: string)
    ensures SubmitCode(SubmitCode(s, first), second) == SubmitCode(s, second)
  {
  }

  /** Submitting the same code twice is the same as submitting it once. */
  lemma SubmitCodeIdempotent(s: Selection, input: string)
    ensures SubmitCode(SubmitCode(s, input), input) == SubmitCode(s, input)
  {
    LatestCodeWins(s, input, input);
  }

  /** Submitting "homies" turns the discount on; submitting "WRONG" afterwards
      turns it off again. */
  lemma CodeScenario(s: Selection)
    ensures SubmitCode(s, "homies").discountActive
    ensures !SubmitCode(SubmitCode(s, "homies"), "WRONG").discountActive
  {
    PromoCode.LowerCaseAccepted();
    PromoCode.RejectedExamples();
  }

  /** The toggle whose type was selected is the only active one when the
      toggle types are distinct; none is active for an unknown type. */
  lemma {:induction false} ToggleExclusive(types: seq<string>, receptionType: string)
    requires Distinct(types)
    ensures CountSet(ToggleFlags(types, receptionType)) == (if receptionType in types then 1 else 0)
  {
    if types != [] {
      var flags := ToggleFlags(types, receptionType);
      assert flags[1..] == ToggleFlags(types[1..], receptionType);
      ToggleExclusive(types[1..], receptionType);
      assert receptionType in types <==> types[0] == receptionType || receptionType in types[1..];
      if types[0] == receptionType {
        assert receptionType !in types[1..] by {
          forall k | 0 <= k < |types[1..]| ensures types[1..][k] != receptionType {
            assert types[1..][k] == types[k + 1];
          }
        }
      }
    }
  }

  /** The page: what the selection state is and what every price element,
      the slider hint, the venue toggles and the code message show. */
  class Configurator {
    var discountActive: bool
    var receptionType: string
    var photoCount: int

    /** The non-reception price cards (read only) and what each one shows. */
    const cards: array<Card>
    const cardPrices: array<PriceDisplay>
    var receptionPrice: PriceDisplay
    var packagePrice: PriceDisplay
    var badgeHidden: bool
    var hint: Hint
    var message: Message

    /** The venue toggle buttons: their types (read only) and active flags. */
    const toggleTypes: array<string>
    const toggleActive: array<bool>

    ghost predicate Valid()
      reads this
    {
      cardPrices.Length == cards.Length && toggleActive.Length == toggleTypes.Length
    }

    /** The selection state held by the page. */
    function State(): Selection
      reads this
    {
      Selection(discountActive, receptionType, photoCount)
    }

    /** Every price element shows what the current selection determines. */
    ghost predicate PricesRendered()
      reads this, cards, cardPrices
      requires Valid()
    {
      cardPrices[..] == CardsDisplay(cards[..], discountActive) &&
      receptionPrice == ReceptionDisplay(discountActive, receptionType, photoCount) &&
      packagePrice == PackageDisplay(discountActive) &&
      badgeHidden == !discountActive
    }

    /** The slider hint and the venue toggles match the selection. */
    ghost predicate ControlsRendered()
      reads this, toggleTypes, toggleActive
      requires Valid()
    {
      hint == HintFor(PhotoAdjustment(discountActive, photoCount)) &&
      toggleActive[..] == ToggleFlags(toggleTypes[..], receptionType)
    }

    ghost predicate Rendered()
      reads this, cards, cardPrices, toggleTypes, toggleActive
      requires Valid()
    {
      PricesRendered() && ControlsRendered()
    }

    /** Page load: the default selection, the static markup showing the
        undiscounted prices with the indoor toggle active, then the slider
        readout initialised. */
    constructor (cards: array<Card>, toggleTypes: array<string>)
      ensures Valid() && Rendered()
      ensures State() == InitialSelection && message == NoMessage
      ensures this.cards == cards && this.toggleTypes == toggleTypes
      ensures fresh(cardPrices) && fresh(toggleActive)
    {
      discountActive := false;
      receptionType := IndoorType;
      photoCount := BaseCount;
      this.cards := cards;
      this.toggleTypes := toggleTypes;
      cardPrices := new PriceDisplay[cards.Length];
      toggleActive := new bool[toggleTypes.Length];
      message := NoMessage;
      new;
      UpdateAllPrices();
      MarkActiveToggle(IndoorType);
      UpdatePhotoCount(BaseCount);
    }

    /** `applyDiscount`: classify the submitted code, show the message and
        repaint every price. */
    method ApplyDiscount(input: string)
      requires Valid()
      modifies this`discountActive, this`message, cardPrices
      modifies this`receptionPrice, this`packagePrice, this`badgeHidden
      ensures Valid() && PricesRendered()
      ensures State() == SubmitCode(old(State()), input)
      ensures message == (if PromoCode.IsAccepted(input) then CodeApplied else CodeInvalid)
      ensures old(Rendered()) ==> Rendered()
    {
      var code := PromoCode.Normalize(input);
      if code == PromoCode.AcceptedCode {
        discountActive := true;
        message := CodeApplied;
      } else {
        discountActive := false;
        message := CodeInvalid;
      }
      UpdateAllPrices();
      HintIndependentOfDiscount(photoCount);
    }

    /** `setReceptionType`: record the venue, mark the matching toggle and
        repaint the reception price. */
    method SetReceptionType(receptionType: string)
      requires Valid()
      modifies this`receptionType, this`receptionPrice, toggleActive
      ensures Valid()
      ensures State() == SelectReceptionType(old(State()), receptionType)
      ensures toggleActive[..] == ToggleFlags(toggleTypes[..], receptionType)
      ensures receptionPrice == ReceptionDisplay(discountActive, receptionType, photoCount)
      ensures old(Rendered()) ==> Rendered()
    {
      this.receptionType := receptionType;
      MarkActiveToggle(receptionType);
      UpdateReceptionPrice();
    }

    /** The toggle loop of `setReceptionType`: a button is active exactly
        when its type is the selected one. */
    method MarkActiveToggle(receptionType: string)
      requires Valid()
      modifies toggleActive
      ensures toggleActive[..] == ToggleFlags(toggleTypes[..], receptionType)
    {
      var i := 0;
      while i < toggleActive.Length
        invariant 0 <= i <= toggleActive.Length
        invariant forall k :: 0 <= k < i ==> (toggleActive[k] <==> toggleTypes[k] == receptionType)
      {
        toggleActive[i] := toggleTypes[i] == receptionType;
        i := i + 1;
      }
    }

    /** `updatePhotoCount`: take the slider value, set the sign of the hint
        and repaint the reception price. */
    method UpdatePhotoCount(count: int)
      requires Valid()
      modifies this`photoCount, this`hint, this`receptionPrice
      ensures Valid()
      ensures State() == SetPhotoCount(old(State()), count)
      ensures hint == HintFor(PhotoAdjustment(discountActive, count))
      ensures receptionPrice == ReceptionDisplay(discountActive, receptionType, count)
      ensures old(Rendered()) ==> Rendered()
    {
      photoCount := count;
      var adj := PhotoAdjustment(discountActive, photoCount);
      if adj > 0 {
        hint := Surcharge;
      } else if adj < 0 {
        hint := Savings;
      } else {
        hint := BaseRate;
      }
      UpdateReceptionPrice();
    }

    /** `updateReceptionPrice`: base plus adjustment, floored at $300; when
        discounted, the unfloored undiscounted total is struck through. */
    method UpdateReceptionPrice()
      modifies this`receptionPrice
      ensures receptionPrice == ReceptionDisplay(discountActive, receptionType, photoCount)
    {
      var adj := PhotoAdjustment(discountActive, photoCount);
      var total := ReceptionBasePrice(discountActive, receptionType) + adj;
      if total < MinReception {
        total := MinReception;
      }
      if discountActive {
        var fullBase := if receptionType == IndoorType then 2000 else 1500;
        receptionPrice := PriceDisplay(Some(fullBase + adj), Dollars(total));
      } else {
        receptionPrice := PriceDisplay(None, Dollars(total));
      }
    }

    /** `updateAllPrices`: every card, the reception card, the package and
        the discount badge. */
    method UpdateAllPrices()
      requires Valid()
      modifies cardPrices, this`receptionPrice, this`packagePrice, this`badgeHidden
      ensures PricesRendered()
    {
      var i := 0;
      while i < cards.Length
        invariant 0 <= i <= cards.Length
        invariant forall k :: 0 <= k < i ==> cardPrices[k] == CardDisplay(cards[k], discountActive)
      {
        var card := cards[i];
        if discountActive {
          if card.isBridals {
            cardPrices[i] := PriceDisplay(Some(card.base), Included);
          } else {
            cardPrices[i] := PriceDisplay(Some(card.base), Dollars(RoundHalfOf(card.base)));
          }
        } else {
          cardPrices[i] := PriceDisplay(None, Dollars(card.base));
        }
        i := i + 1;
      }
      UpdateReceptionPrice();
      if discountActive {
        packagePrice := PriceDisplay(Some(PackageFull), Dollars(PackageDiscounted));
      } else {
        packagePrice := PriceDisplay(None, Dollars(PackageFull));
      }
      badgeHidden := !discountActive;
    }
  }
}

# Pricing configurator of a photography storefront, in Dafny

This project models the pricing logic of a photography-services storefront
page (`app.js`). Three selections drive it:

- whether the promo code is active,
- the reception venue type (`indoor` / `outdoor`),
- the number of photos chosen on the slider.

From these the page computes and shows these prices:

- each service card: the full price, half price, or "Included" for Bridals;
- the reception card: a table base price plus a per-photo adjustment around
  700 photos, never below $300;
- the fixed package price;
- the "discount applied" badge.

A small second piece models the gallery lightbox: stepping through a
category's images with wraparound.

Files:

- `price_rules.dfy`, module `PriceRules`: the pure price rules as functions,
  with lemmas for the properties the page relies on.
- `promo_code.dfy`, module `PromoCode`: `trim().toUpperCase()` and the
  comparison with the single accepted code.
- `configurator.dfy`, module `Storefront`: the selection state as a value,
  its three transitions, and the class `Configurator`. The class holds the
  state plus everything the page shows: card prices in an array, the
  reception and package prices, the badge, the hint sign, the toggle flags in
  an array, and the code message. Its methods mirror `applyDiscount`,
  `setReceptionType`, `updatePhotoCount`, `updateReceptionPrice` and
  `updateAllPrices`.
- `lightbox.dfy`, module `Gallery`: index arithmetic for next and previous,
  and the class `Lightbox` for `openGallery`, `openLightbox`, `prevImage`,
  `nextImage` and the two close actions.

Modelling choices:

- Amounts are whole dollars (`int`).
- `Math.round(x)` is `floor(x + 1/2)`, so it rounds halves toward positive
  infinity (`Math.round(-1.5) == -1`). `Math.round(diff * 1.5)` is written
  `RoundHalfOf(3 * diff)` and `Math.round(base * 0.5)` is `RoundHalfOf(base)`.
  `RoundHalfOf(n) == (n + 1) / 2`, with floor division by a positive divisor.
  This is not symmetric round-half-up: `Math.round(-1.5)` is −1, and the
  model follows `Math.round`.
- `receptionType` stays a string, as in the source. The price table checks
  `=== 'indoor'`, so any other value is priced as outdoor. A toggle button
  is active exactly when its `data-type` equals the selected type.
- The class `Configurator` says what a consistent page is:
  - `PricesRendered`: every price element shows what the selection determines.
  - `ControlsRendered`: the hint sign and the toggle flags match the
    selection.

  `ApplyDiscount` establishes `PricesRendered` outright. `SetReceptionType`
  and `UpdatePhotoCount` only repaint the reception card and their own
  controls. They keep the whole page consistent because card and package
  prices do not depend on venue or photo count. `ApplyDiscount` does not
  touch the hint, and the hint's sign does not depend on the discount
  (`HintIndependentOfDiscount`), so the hint stays consistent too.
- The reception card's struck-through original is the undiscounted base plus
  the discounted adjustment, and it is not clamped at $300. Two consequences,
  both proved:
  - It equals what the page shows without the code exactly when at least
    700 photos are chosen; below 700 it is strictly lower
    (`ReceptionOriginalIsNotUndiscountedPrice`, with the worked case at 500
    outdoor photos in `ReceptionOriginalIsNotUndiscountedPriceExample`).
  - For an outdoor reception with fewer than 100 photos, the original is
    below the price charged (`ReceptionOriginalVersusCurrent`,
    `ReceptionOriginalBelowCurrentExample`).

  The slider's bounds are in the page markup, which is not part of this
  model, so whether such counts are reachable is not known here.

## Model

| member | source | states |
|---|---|---|
| PriceRules.RoundHalfOf | app.js:211 | `Math.round(n / 2)`: the result r satisfies 2r - 1 <= n < 2r + 1, so halves round toward +∞ |
| PriceRules.RoundHalfOfUnique | app.js:152 | any r with 2r - 1 <= n < 2r + 1 is `RoundHalfOf(n)`, so the rounding is fully determined |
| PriceRules.ReceptionBasePrice | app.js:133-138 | `getReceptionBasePrice`: "indoor" costs 1400 discounted / 2000 undiscounted; every other type 1050 / 1500 |
| PriceRules.FullReceptionBase | app.js:188 | the struck-through base is the undiscounted table entry for the type |
| PriceRules.NonIndoorPricedAsOutdoor | app.js:135-137 | any type other than "indoor" gets exactly the outdoor prices, discounted or not |
| PriceRules.ReceptionBaseTable | app.js:133-138 | the reception base table: indoor 2000 / outdoor 1500 undiscounted, 1400 / 1050 discounted |
| PriceRules.DiscountedBaseIsSeventyPercent | app.js:133-138 | the discounted base is 70% of the undiscounted base for every type; the undiscounted base is the one struck through (app.js:188) |
| PriceRules.PhotoAdjustment | app.js:140-154 | 0 at 700 photos; 2·(count−700) above; negative below, 2·(count−700) when discounted and `Math.round(1.5·(count−700))` otherwise |
| PriceRules.SurchargeIndependentOfDiscount | app.js:146-148 | at or above 700 photos the adjustment is 2·(count−700) with or without the discount |
| PriceRules.DiscountNeverRaisesAdjustment | app.js:149-153 | the discounted adjustment is never above the undiscounted one, and strictly below exactly when count < 700 |
| PriceRules.AdjustmentMonotone | app.js:140-154 | more photos never give a smaller adjustment, with or without the discount |
| PriceRules.AdjustmentExamples | app.js:140-154 | 700 → 0 either way; 900 → 400 either way; 500 → −300 undiscounted, −400 discounted; 699 → −1 |
| PriceRules.ReceptionTotal | app.js:178-182 | the reception total is at least $300 and at least base + adjustment; it equals base + adjustment unless it is the $300 floor |
| PriceRules.ReceptionTotalExamples | app.js:178-182 | indoor 700 photos: 2000 undiscounted, 1400 discounted; outdoor 100 photos discounted: the $300 floor |
| PriceRules.ReceptionDisplay | app.js:178-196 | the reception card's current value is the clamped total; a struck-through original is shown iff the discount is active, and it is the undiscounted base plus the discounted adjustment, with no $300 floor |
| PriceRules.ReceptionOriginalVersusCurrent | app.js:186-190 | the struck-through original is at least the current price iff undiscounted base + discounted adjustment reaches $300 |
| PriceRules.ReceptionOriginalBelowCurrentExample | app.js:186-190 | outdoor, 50 photos, discounted: original $200 struck through, current $300 |
| PriceRules.ReceptionOriginalIsNotUndiscountedPrice | app.js:186-190 | for every type and count, the struck-through original equals the price shown without the code iff count ≥ 700, and is strictly below it otherwise |
| PriceRules.ReceptionOriginalIsNotUndiscountedPriceExample | app.js:186-190 | outdoor, 500 photos: the struck-through original is $1,100 while the undiscounted page shows $1,200 |
| PriceRules.CardDisplay | app.js:205-218 | undiscounted: the base, no original; discounted: the base struck through, and "Included" for Bridals or `Math.round(base/2)` otherwise |
| PriceRules.CardsDisplay | app.js:200-219 | every non-reception card is rendered by the card rule, in order, one display per card |
| PriceRules.CardDiscountHalves | app.js:210-213 | for a non-negative base, a discounted non-Bridals card costs between half its base and its base, never more than the struck-through original |
| PriceRules.CardExamples | app.js:203-217 | a $200 Bridals card discounted shows $200 / Included; a $200 other card $200 / $100; a $199 card $199 / $100 |
| PriceRules.PackageDisplay | app.js:224-232 | package: $4,000 with no original, or $4,000 struck through and $2,000 iff discounted |
| PriceRules.HintFor | app.js:164-173 | the hint is a surcharge iff the adjustment is positive, a saving iff negative, the base rate iff zero |
| PriceRules.HintIndependentOfDiscount | app.js:161-173 | the hint's sign depends only on count vs 700, never on the discount |
| PromoCode.TrimStart | app.js:110 | leading whitespace removed: the result is a suffix, only whitespace was dropped, and it starts with non-whitespace |
| PromoCode.TrimEnd | app.js:110 | trailing whitespace removed: the result is a prefix, only whitespace was dropped, and it ends with non-whitespace |
| PromoCode.Trim | app.js:110 | `trim()`: the result is the input with its leading and trailing whitespace removed, and it neither starts nor ends with whitespace |
| PromoCode.Normalize | app.js:110 | `trim().toUpperCase()`: the upper-cased slice of the input left after dropping its leading and trailing whitespace; no lower-case ASCII letter and no whitespace at either end |
| PromoCode.IsAccepted | app.js:112 | an accepted input trims to exactly six characters |
| PromoCode.Upper | app.js:110 | `toUpperCase()`: same length, each character upper-cased |
| PromoCode.NormalizeIdempotent | app.js:110 | trimming and upper-casing an already normalized code changes nothing |
| PromoCode.PaddedCodeAccepted | app.js:110-113 | any letter case of HOMIES with any whitespace around it is accepted |
| PromoCode.AcceptedIsPaddedCode | app.js:110-113 | every accepted input is whitespace, a word that upper-cases to HOMIES, and whitespace |
| PromoCode.LowerCaseAccepted | app.js:110-113 | "homies" is accepted |
| PromoCode.RejectedExamples | app.js:117-118 | "", "WRONG" and "HOMIE" are rejected |
| Storefront.SubmitCode | app.js:107-122 | after a code is submitted the discount is on iff the code is accepted; venue and photo count are kept |
| Storefront.SelectReceptionType | app.js:125-126 | selecting a venue changes only the reception type |
| Storefront.SetPhotoCount | app.js:156-158 | moving the slider changes only the photo count |
| Storefront.ToggleFlags | app.js:127-129 | a toggle is active iff its type is the selected one |
| Storefront.LatestCodeWins | app.js:112-122 | a later code overrides an earlier one, so an invalid code revokes a valid one |
| Storefront.SubmitCodeIdempotent | app.js:107-122 | submitting the same code twice gives the same state as submitting it once |
| Storefront.CodeScenario | app.js:107-122 | "homies" turns the discount on; "WRONG" afterwards turns it off |
| Storefront.ToggleExclusive | app.js:125-129 | with distinct toggle types, exactly one toggle is active after selecting a listed type, none for an unlisted one |
| Storefront.Configurator.constructor | app.js:104-105 | page load: discount off, indoor, 700 photos, every price and control consistent with that selection |
| Storefront.Configurator.ApplyDiscount | app.js:107-123 | new state is `SubmitCode` of the old; message says applied or invalid; all prices repainted and nothing else (hint and toggles untouched); a consistent page stays consistent |
| Storefront.Configurator.SetReceptionType | app.js:125-131 | new state is `SelectReceptionType` of the old; toggles and reception price repainted; a consistent page stays consistent |
| Storefront.Configurator.MarkActiveToggle | app.js:127-129 | the toggle loop leaves each button active iff its type is the selected one |
| Storefront.Configurator.UpdatePhotoCount | app.js:156-176 | new state is `SetPhotoCount` of the old; hint sign and reception price repainted; a consistent page stays consistent |
| Storefront.Configurator.UpdateReceptionPrice | app.js:178-196 | the reception element shows `ReceptionDisplay` of the current selection |
| Storefront.Configurator.UpdateAllPrices | app.js:198-237 | every card, the reception card, the package and the badge show what the current selection determines; nothing else is written |
| Gallery.NextIndex | app.js:75-79 | the next index is in range, and for an in-range index it is the successor, wrapping from the last to 0 |
| Gallery.PrevIndex | app.js:69-73 | the previous index is in range, and for an in-range index it is the predecessor, wrapping from 0 to the last |
| Gallery.StepForward | app.js:75-79 | any number of "next" presses keeps the index in range |
| Gallery.NextPrevInverse | app.js:69-79 | "next" then "prev", and "prev" then "next", return to the same index |
| Gallery.StepForwardMoves | app.js:75-79 | k presses of "next" from index i land on (i + k) mod n, for every k |
| Gallery.FullCycleReturns | app.js:75-79 | n presses of "next" over n images return to the starting image |
| Gallery.Lightbox.constructor | app.js:23-24 | no images, index 0, gallery and lightbox closed |
| Gallery.Lightbox.OpenGallery | app.js:26-50 | unknown or empty categories are ignored; otherwise the list is the folder-prefixed images and the title is set; the index is kept |
| Gallery.Lightbox.CloseGallery | app.js:52-55 | the gallery is closed |
| Gallery.Lightbox.OpenLightbox | app.js:57-62 | the lightbox shows the image at the given index |
| Gallery.Lightbox.CloseLightbox | app.js:64-67 | the lightbox is closed |
| Gallery.Lightbox.PrevImage | app.js:69-73 | the index becomes `PrevIndex` of the old one, stays in range, and the shown image follows it |
| Gallery.Lightbox.NextImage | app.js:75-79 | the index becomes `NextIndex` of the old one, stays in range, and the shown image follows it |

## Left out

- DOM output is not modelled: HTML strings, `textContent`, CSS classes and
  hint colours. Prices are integers, "Included" is a constructor, and the
  hint is its sign only.
- Hint amount: `applyDiscount` does not refresh the hint's dollar figure.
  Only the hint's sign is modelled, and the sign stays correct.
- `toLocaleString` thousands separators are not modelled.
- `parseInt` of the slider value and of a card's `data-base` is not modelled.
  Both are taken as integers.
- The slider's bounds and step live in the page markup, which is not part of
  this model. `photoCount` is any integer.
- Which card is Bridals is decided from the card's `h3` text. The model takes
  it as a flag of the card.
- Storefront.Configurator.constructor: the static markup's initial prices and
  initial active toggle and the slider's initial value are not part of this
  model. The constructor assumes they show the undiscounted rendering with
  the indoor toggle active, and that the slider starts at 700, which
  `updatePhotoCount` then reads at page load.
- Floating point is not modelled. `diff * 1.5`, `diff * 2` and `base * 0.5`
  are exact in IEEE doubles when the photo difference and the prices are
  below 2^51 in magnitude, and the model uses that exact integer arithmetic.
- `trim` and `toUpperCase` cover ASCII letters plus eight whitespace
  characters: space, tab, LF, CR, VT, FF, no-break space and the byte-order
  mark. Other Unicode whitespace is not covered. Neither is a non-ASCII
  letter that upper-cases to an ASCII one (dotless ı becomes I in
  JavaScript).
- Event listeners, keyboard wiring and `stopPropagation` are not modelled.
  Neither is the navigation bar's scroll effect.
- The hero slideshow is not modelled. It is a timer rotating an index.
- Image-manifest loading (the injected `images.js`, `registerImages`,
  `setPreviewImages`) is not modelled. It is I/O against a file that is not
  part of this model.
- Gallery.Lightbox.OpenLightbox requires an index of the current list. Its
  only caller, the thumbnail click at app.js:44, passes one.
- Gallery.Lightbox.PrevImage requires a non-empty current list. The lightbox
  buttons exist only once a gallery is open, and `openGallery` refuses empty
  lists.
- Gallery.Lightbox.NextImage has the same non-empty requirement, for the same
  reason.

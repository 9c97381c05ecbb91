# Etsy listing price calculator — a verified Dafny model

This project models the calculation and persistence core of the Etsy listing price
calculator. In the source this is `src/scripts.js`: a single browser script that
turns a seller's costs into a listing price and stores named product setups in
local storage.

The model has seven modules, one file each:

- `text.dfy` — module `Text`: `sanitizeInput` and `toCamelCase`, the two string
  helpers that turn a typed product name into a storage key.
- `money.dfy` — module `Money`: `round2`, `Math.round`, `Math.ceil` to cents, and the
  `toFixed(2)` text an output shows. Amounts are exact reals; an output's text is
  whole cents.
- `totals.dfy` — module `TotalsProxy`: the `totals` proxy as a class `Totals`.
  - The `Set` method stores a value as two-decimal text.
  - It then recomputes `valueTotal` when an expenses or labor total changes, and
    `feesTotal` when a fee changes.
  - Invariant: the display always reads as the written outputs say, so
    `valueTotal` and `feesTotal` always agree with their inputs.
- `line_items.dfy` — module `LineItems`: the reduce loops over line items (subtotals,
  list totals, labor hours), as methods proved against recursive specification
  functions.
- `pricing.dfy` — module `Pricing`: the pricing formulas as pure functions:
  - the income-tax set-aside and the grossed-up cost basis;
  - the compound fee rate;
  - the listing price solved from "fees are charged on the price itself", then
    rounded up to a whole cent;
  - the forward fee breakdown and the quick estimator.

  It also holds the lemmas about these formulas: the price is the least whole-cent
  price that recovers the cost basis, it is monotone in shipping, sales tax and ad
  rate, and the seller's return covers the cost basis up to rounding.
- `session.dfy` — module `Calculator`: the page state as a class `Session`, holding
  the totals and the two handler globals (`offsiteAdHandler`, `incomeTaxHandler`).
  - Each operation writes totals in the source's order, with the same early
    returns.
  - `CalculateListingPrice` is proved to leave exactly the display that
    `Pricing.Resolve` calls for: zeroed outputs for an empty form, only the
    set-aside when fees reach 100%, otherwise the full breakdown.
- `storage.dfy` — module `Storage`: the saved setups as a class `SetupStore` over a
  map from key to setup.
  - Covers the support probe, save (key derivation, rejection of an empty name,
    overwrite), get, and confirm-delete.
  - The listing method is proved to return exactly the prefixed keys, each once,
    newest first.

Input parsing (`parseFloat(x) || 0`) is taken as given: forms and line items reach
the model as numbers, with a blank or non-numeric field as 0. The browser supplies
three things that become parameters: whether local storage exists and what the
probe threw, whether storage refuses a write, and `Date.now()`.

For expenses 10.00, shipping 5.00 and 7.52% sales tax, the formula at
`src/scripts.js:458-459` gives 12.12 (`Pricing.ExpensesWithShippingScenario`).

## Model

| member | source | states |
|---|---|---|
| Text.Lower | src/scripts.js:15 | lower-casing keeps the length and maps every character through the ASCII lower-case mapping |
| Text.TrimStart | src/scripts.js:19 | the result is a suffix of the input, starts with no whitespace, and only whitespace was dropped |
| Text.TrimEnd | src/scripts.js:19 | the result is a prefix of the input, ends with no whitespace, and only whitespace was dropped |
| Text.Trim | src/scripts.js:19 | the result is the slice of the input between its leading and trailing whitespace, with no whitespace at either end; empty exactly when the input is all whitespace |
| Text.StripAngles | src/scripts.js:19 | no `<` or `>` is left, every character kept comes from the input, and the result is empty exactly when the input is all angle brackets |
| Text.Collapse | src/scripts.js:19 | every whitespace run becomes one space: no two adjacent whitespace characters, whitespace only as ' ', empty exactly when the input is |
| Text.Sanitize | src/scripts.js:19 | sanitizeInput: no angle brackets, whitespace only as single spaces, never two adjacent, and empty exactly when the trimmed input is all angle brackets |
| Text.CapitalizeAfterSeparators | src/scripts.js:15 | the replace of toCamelCase: never lengthens, empty iff the input is, leaves no separator directly in front of a lower-case letter |
| Text.ToCamelCase | src/scripts.js:15 | toCamelCase: never lengthens, empty iff the input is, and no separator is left in front of a lower-case letter |
| Text.CamelCaseKeepsText | src/scripts.js:15 | camel-casing only removes separators and changes case: folded to lower case, the non-separator characters are those of the name |
| Text.CapitalizeKeepsText | src/scripts.js:15 | the same for the replace step on its own |
| Text.SanitizeCommutesWithLower | src/scripts.js:19 | sanitizing and lower-casing commute |
| Text.CaseInsensitiveIdentifier | src/scripts.js:15 | names equal up to letter case give the same camel-cased sanitized identifier |
| Text.SanitizeKeepsShieldedEdgeSpace | src/scripts.js:19 | the trim runs before the brackets are stripped, so "< a >" sanitizes to " a " |
| Text.SanitizeBlankLookingName | src/scripts.js:19 | "< >" sanitizes to a single space, which is not empty, so the empty-name check lets it through |
| Text.TrimKeepsText | src/scripts.js:19 | trimming removes whitespace only: every other character of the input survives, in order |
| Text.StripAnglesKeepsText | src/scripts.js:19 | removing the brackets keeps every character that is neither whitespace nor a bracket, in order |
| Text.CollapseKeepsText | src/scripts.js:19 | collapsing whitespace keeps every character that is neither whitespace nor a bracket, in order |
| Text.SanitizeKeepsText | src/scripts.js:19 | sanitizeInput changes only whitespace and angle brackets: the rest of the name survives, in order |
| Text.StripAnglesAppend | src/scripts.js:19 | bracket removal works piece by piece: it distributes over concatenation |
| Text.StripAnglesOne | src/scripts.js:19 | a lone angle bracket is dropped and any other single character is kept |
| Text.CollapseRun | src/scripts.js:19 | a maximal whitespace run becomes exactly one plain space |
| Text.CollapsePlain | src/scripts.js:19 | a character that is not whitespace is copied by the whitespace step |
| Text.CapitalizeLetterAfterRun | src/scripts.js:15 | a separator run followed by a letter a-z is replaced by that letter in upper case |
| Text.KeepRunBeforeOther | src/scripts.js:15 | a separator run followed by any other character, or by nothing, is kept as it is |
| Text.CapitalizePlainPrefix | src/scripts.js:15 | text without separators is copied unchanged by the replace |
| Text.CamelCaseWithBreak | src/scripts.js:15 | two lower-case words typed with a space become one identifier with the second word capitalised |
| Text.CamelCaseWithoutBreak | src/scripts.js:15 | lower-case words typed together are kept as they are |
| Text.WordBreakKeepsNamesApart | src/scripts.js:15 | names that differ by a word break ("blue mug", "bluemug") give different identifiers |
| Money.MathRound | src/scripts.js:22 | Math.round: the integer within half of its argument, a tie going up |
| Money.Round2Cents | src/scripts.js:22 | round2 gives the whole-cent amount within half a cent of its argument |
| Money.Round2OfCents | src/scripts.js:22 | round2 leaves a whole-cent amount unchanged |
| Money.Round2 | src/scripts.js:22 | round2's result is a whole-cent amount within half a cent of its argument |
| Money.MathCeil | src/scripts.js:459 | Math.ceil: the least integer not below its argument |
| Money.CeilCents | src/scripts.js:459 | Math.ceil(n*100)/100 is the least whole-cent amount not below n |
| Money.CeilCentsMonotone | src/scripts.js:459 | ceiling to cents is monotone |
| Money.CeilToCents | src/scripts.js:459 | rounding up to cents gives the least whole-cent amount not below its argument, less than a cent above it |
| Money.ToFixed2Cents | src/scripts.js:164 | toFixed(2) read back is within half a cent of the value, ties rounding away from zero |
| Money.FixedOfCents | src/scripts.js:164 | showing a whole-cent amount and reading it back gives the same amount |
| Money.FixedAgreesWithRound2 | src/scripts.js:164 | toFixed(2) and round2 agree everywhere except on a negative exact half cent |
| Money.FixedAwayFromZeroOnNegativeTie | src/scripts.js:164 | on -0.005 toFixed(2) shows -0.01 while round2 gives 0 |
| TotalsProxy.FeedsValueTotalIsListed | src/scripts.js:167 | the keys whose write recomputes valueTotal are exactly valueTotalDependencies |
| TotalsProxy.StandardFeeKeysWellFormed | src/scripts.js:129-133 | the page's five fee outputs are none of the other named totals |
| TotalsProxy.SumCentsFrame | src/scripts.js:152 | writing a total outside the fee keys leaves their sum unchanged |
| TotalsProxy.AfterSet | src/scripts.js:161-173 | a write touches exactly the key, plus valueTotal when the key feeds it and feesTotal when it is a fee; the key then shows the value to the cent, and every other output keeps what it showed (the recomputed totals are stated by SetEffect) |
| TotalsProxy.SetEffect | src/scripts.js:161-173 | a write shows the value under its key, recomputes valueTotal when the key feeds it and feesTotal when it is a fee, and leaves every other output alone |
| TotalsProxy.SetKeepsConsistent | src/scripts.js:161-173 | any write keeps valueTotal equal to expenses plus labor and feesTotal equal to the fee sum |
| TotalsProxy.StandardFeesTotal | src/scripts.js:151-152 | with the page's fee outputs, feesTotal is the sum of the five fees |
| TotalsProxy.ReadingIsConsistent | src/scripts.js:148-152 | a display that reads as the written outputs say has consistent valueTotal and feesTotal |
| TotalsProxy.SetKeepsReading | src/scripts.js:161-173 | one write keeps the display reading as the written outputs say, with the new text recorded |
| TotalsProxy.Totals.constructor | src/scripts.js:154 | the proxy starts with nothing written, and its invariant holds |
| TotalsProxy.Totals.Get | src/scripts.js:155-159 | the get trap: 0 for an output never written, otherwise the amount the written outputs call for |
| TotalsProxy.Totals.SumOf | src/scripts.js:149-152 | the reduce over keys returns the sum of the amounts shown |
| TotalsProxy.Totals.Write | src/scripts.js:162-164 | the output's text becomes the value with two decimals |
| TotalsProxy.Totals.UpdateValueTotal | src/scripts.js:149 | valueTotal is written as expenses plus labor, as shown |
| TotalsProxy.Totals.UpdateFeeTotal | src/scripts.js:152 | feesTotal is written as the sum of the fee outputs |
| TotalsProxy.Totals.Set | src/scripts.js:161-173 | the set trap's cascade, for every total but the two it computes: the new display, the new written text, and the consistency invariant kept |
| LineItems.Subtotal | src/scripts.js:282 | an item with no numeric fields gives 0, not the empty product 1 |
| LineItems.TwoFieldSubtotal | src/scripts.js:278-282 | a two-field item gives the product of its fields |
| LineItems.BlankFieldZeroesLine | src/scripts.js:282 | one blank (zero) field zeroes the line |
| LineItems.ItemSubtotal | src/scripts.js:281-282 | the reduce of one item computes its subtotal |
| LineItems.Subtotals | src/scripts.js:280-286 | one subtotal per item, in order |
| LineItems.ListTotal | src/scripts.js:279-288 | the two passes return every item's subtotal and their sum |
| LineItems.ListTotalNonNegative | src/scripts.js:280-288 | a list with no negative field has a total that is not negative |
| LineItems.TotalLaborHours | src/scripts.js:307-311 | the hours reduce sums the hours, each rounded to cents first |
| LineItems.HoursNearExactSum | src/scripts.js:308-311 | the rounded hours total is within half a cent per entry of the exact sum |
| Pricing.RateFromPercent | src/scripts.js:397 | a percentage becomes a whole number of ten-thousandths within half a unit of percent/100, a tie going away from zero |
| Pricing.RateOfTwoDecimalPercent | src/scripts.js:446 | a percentage typed with two decimals becomes its rate exactly |
| Pricing.OffsiteAdRate | src/scripts.js:355-361 | 0 while ads are ignored, otherwise the selected percentage as a rate |
| Pricing.IncomeTaxSetAside | src/scripts.js:400-412 | ignore gives 0, view gives labor times rate, and factor leaves exactly the labor total once taxed at the rate |
| Pricing.FactorSetAsideIsTaxOnGrossLabor | src/scripts.js:409-411 | in factor mode the set-aside is exactly the tax on the grossed-up labor |
| Pricing.CostBasis | src/scripts.js:439-444 | net is valueTotal, except that in factor mode it is expenses plus labor plus the set-aside |
| Pricing.CompoundRate | src/scripts.js:448-453 | with rates that are not negative, the compound rate is never below the 9.5% of the transaction and processing fees |
| Pricing.IgnoredAdsCountAsZeroRate | src/scripts.js:448-453 | ignoring offsite ads prices exactly as a 0% ad rate would, whatever rate is selected; factoring them in adds exactly the ad rate |
| Pricing.CompoundRateMonotone | src/scripts.js:448-453 | a higher sales-tax or ad rate never lowers the compound rate |
| Pricing.RawListingPrice | src/scripts.js:458 | the unrounded price leaves exactly the cost basis after percentage fees on price plus shipping and the flat fees |
| Pricing.ListingPriceFor | src/scripts.js:459 | the listing price is a whole-cent amount, not below the unrounded price, and no greater than any whole-cent amount that is |
| Pricing.Forward | src/scripts.js:462-468 | the forward breakdown: tax, transaction and ad fees and the processing fee less its 0.25 are whole cents, each within half a cent of its formula (so each is that formula rounded); customer total is price plus shipping plus tax |
| Pricing.Resolve | src/scripts.js:422-471 | zeroed iff valueTotal <= 0, infeasible iff fees reach 100%, otherwise priced at the forward breakdown of the solved price, with the set-aside |
| Pricing.PriceRecoversCostBasis | src/scripts.js:458-459 | the listing price recovers at least the cost basis after percentage and flat fees |
| Pricing.PriceIsLeastRecovering | src/scripts.js:459 | no smaller whole-cent price recovers the cost basis |
| Pricing.ListingPriceMonotoneInShipping | src/scripts.js:458-459 | raising shipping never lowers the listing price |
| Pricing.ListingPriceMonotoneInCompound | src/scripts.js:455-459 | a higher compound rate never lowers the listing price |
| Pricing.ListingPriceMonotoneInSalesTax | src/scripts.js:446-459 | raising the sales-tax rate never lowers the listing price |
| Pricing.ListingPriceMonotoneInAdRate | src/scripts.js:449-459 | raising the offsite-ad rate never lowers the listing price |
| Pricing.ForwardFeesBound | src/scripts.js:462-467 | at any price the breakdown's fees are at most the compound rate on price plus shipping and the flat fees, plus about two cents |
| Pricing.ReturnCoversCostBasis | src/scripts.js:458-470 | the price less the fees it is charged leaves the cost basis, up to about two cents of rounding |
| Pricing.ReturnAtRecoveringPrice | src/scripts.js:458-470 | the same at any price that recovers the cost basis after the compound rate and flat fees, not only the computed one |
| Pricing.FactorReturnCoversValue | src/scripts.js:440-470 | in factor mode the return left after the set-aside still covers valueTotal, up to the same rounding |
| Pricing.QuickReturn | src/scripts.js:477-487 | an empty quick price gives a return of 0 |
| Pricing.QuickReturnNearExact | src/scripts.js:481-486 | the quick return is the price less its fees at the averaged 7.52% tax, within a cent and a half |
| Pricing.ExpensesOnlyScenario | src/scripts.js:448-459 | expenses 10.00 at 7.52% tax: compound rate 0.097256 and listing price 11.58 |
| Pricing.ExpensesWithShippingScenario | src/scripts.js:458-459 | the same with 5.00 shipping: listing price 12.12 |
| Calculator.ZeroingOutputs | src/scripts.js:423-433 | an empty form zeroes exactly the eight outputs; feesTotal then reads the listing fee alone; nothing else changes |
| Calculator.PricingShowsBreakdown | src/scripts.js:460-468 | after pricing, the set-aside and each breakdown figure read as computed |
| Calculator.PricingFeesAndReturn | src/scripts.js:470 | after pricing, feesTotal uses the shipping-label fee last stored, and the return is price less fees and set-aside as finally shown |
| Calculator.PricingLeavesRest | src/scripts.js:422-471 | pricing leaves the line totals, listing fee, shipping-label fee and quick return as they were |
| Calculator.StartupDisplay | src/scripts.js:175 | at start-up the listing fee and feesTotal read 0.20 and every other output reads 0 |
| Calculator.Session.constructor | src/scripts.js:175 | page load: both handlers 'ignore' and only the listing fee written |
| Calculator.Session.SetOffsiteAdHandler | src/scripts.js:335-339 | the ad handler becomes the given mode; the tax handler is unchanged |
| Calculator.Session.SetIncomeTaxHandler | src/scripts.js:376-380 | the tax handler becomes the given mode; the ad handler is unchanged |
| Calculator.Session.UpdateLineItemListTotal | src/scripts.js:277-289 | the list's total becomes the sum of its subtotals, through the set trap |
| Calculator.Session.UpdateAllLineItemLists | src/scripts.js:300-303 | the expenses total and then the labor total are rewritten |
| Calculator.Session.GetTotalLaborHours | src/scripts.js:306-313 | laborHoursTotal becomes the sum of the hours, each rounded to cents |
| Calculator.Session.UpdateShippingLabelFee | src/scripts.js:324-327 | the shipping-label fee becomes round2 of 6.5% of the shipping cost |
| Calculator.Session.CalculateIncomeTax | src/scripts.js:396-416 | incomeTaxTotal becomes the set-aside for the current handler, on the labor total shown; the rate is returned |
| Calculator.Session.ZeroOutputs | src/scripts.js:423-432 | the eight zeroing writes, in order |
| Calculator.Session.WriteBreakdown | src/scripts.js:460-470 | the forward breakdown written output by output, the return last |
| Calculator.Session.UpdateReturn | src/scripts.js:470 | the return becomes the price less feesTotal and the set-aside as they read then |
| Calculator.Session.CalculateListingPrice | src/scripts.js:422-471 | the display afterwards is exactly what Resolve calls for: zeroed, only the set-aside written, or set-aside plus the whole breakdown |
| Calculator.Session.CalculateReturn | src/scripts.js:477-487 | qcReturn becomes the quick estimate, 0 for an empty price |
| Storage.StorageKey | src/scripts.js:573 | every derived key is the 'elpc_' prefix followed by the camel-cased name, so a non-empty name gives more than the prefix |
| Storage.ProbeKeyIsNotASetupKey | src/scripts.js:538 | the probe's key is never a setup's key |
| Storage.CaseInsensitiveKeys | src/scripts.js:573 | names equal up to letter case are saved under the same key |
| Storage.SnapshotRows | src/scripts.js:587-602 | the forEach loops copy every row in order, its name sanitized |
| Storage.SavedRowNamesAreClean | src/scripts.js:589 | a saved row name has no angle brackets and no doubled whitespace |
| Storage.SetupStore.IsStorageSupported | src/scripts.js:535-550 | no storage: unsupported; a passing probe: supported; a throwing probe: supported iff it was a quota error and storage is not empty |
| Storage.SetupStore.SaveProductSetup | src/scripts.js:563-632 | an empty sanitized name or a refused write changes nothing; otherwise exactly the entry at the derived key is written, with the sanitized record, and whether it replaced one is reported |
| Storage.SetupStore.GetSingleSetup | src/scripts.js:646-649 | the setup stored under the key, or nothing when it is missing |
| Storage.SetupStore.ConfirmDelete | src/scripts.js:708-711 | the key is removed, every other entry stays, and a get then finds nothing |
| Storage.SetupStore.LoadSavedSetups | src/scripts.js:635-644 | exactly the prefixed keys, each once, newest first |
| Storage.InsertNewestFirst | src/scripts.js:639 | one insertion step of the newest-first order: the keys so far plus the new one, still newest first and without repeats |

## Left out

- DOM reading and writing, event wiring, modals, notices and templates (`renderTemplate`,
  `addItem`, `updateProductHeading`, `clearInputs`, the `setTimeout` flashes) and
  service-worker registration: UI glue with nothing to compute.
- IEEE-754 arithmetic: amounts are exact reals, so binary rounding of `Math.round`,
  `Math.ceil`, `toFixed` and sums, and infinities and NaN, are not modelled.
- `parseFloat` and `|| 0`: inputs arrive as numbers, a blank or non-numeric field as 0.
- Case mapping and whitespace: `toLowerCase` is modelled for ASCII letters only. The
  whitespace set is that of the regular-expression class `\s`.
- `toKebabCase` and the element lookup of the proxy: totals are an enumeration of the
  sixteen named outputs, and every one is assumed to have its element on the page
  (the proxy silently drops a write to a missing element).
- TotalsProxy.Totals: what the display last had written to each output is kept as
  ghost state, so that the invariant can be stated.
- Calculator.Session.CalculateListingPrice: requires an income-tax rate below 100% in
  factor mode when the form is not empty. The model therefore excludes rates of 100%
  and above: at exactly 100% the source divides by zero at line 411, and above it
  the source sets aside a negative amount.
- Calculator.Session.CalculateIncomeTax: requires the same rate bound when the
  handler is 'factor'.
- Pricing.OffsiteAdRate: takes the selected percentage as a number. The NaN that
  `getOffsiteAdRate` gives when no ad radio is checked is not modelled.
- `isQuotaExceededError` and the storage exception types: the probe's outcome and
  whether storage refuses a write (for any reason the catch at line 607 handles)
  are parameters.
- JSON encoding: storage maps keys to setup records directly. Values that other
  code stores under keys without the prefix are treated as records too; only
  their keys matter, and listing skips them.
- Storage.SetupStore.SaveProductSetup: says "updated" when the key already held an
  entry. The source decides this from the saved-setups list on the page, which
  mirrors storage.
- Storage.SetupStore.LoadSavedSetups: does not state the order of setups with equal
  time stamps. The source's stable sort keeps them in the browser's key order,
  which is not modelled.
- `loadManufacturingCosts`, `loadIndirectCosts` and the load and append buttons: they
  copy a stored setup back into the form. The shipping-label fee they write is the
  same formula as Calculator.Session.UpdateShippingLabelFee.
- `updateTotals` and the input dispatcher that re-runs the calculations: they only
  call the modelled operations in sequence.

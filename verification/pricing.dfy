/** The pricing formulas of the calculator as pure functions over exact reals:
    the income-tax set-aside, the offsite-ad rate, the compound fee rate, the
    listing price solved from "fees are charged on the price itself", the forward
    fee breakdown of that price, and the quick estimator. The stateful order of
    writes lives in module Calculator; this module states what those writes mean. */
module Pricing {
  import opened Money

  /** totals.listingFeeTotal as set once at start-up (src/scripts.js:175). */
  const ListingFeeFlat: real := 0.20
  const ProcessingFeeFlat: real := 0.25
  const ProcessingRate: real := 0.03
  const TransactionRate: real := 0.065
  /** The shipping-label fee rate (lines 326 and 665). */
  const ShippingLabelRate: real := 0.065
  /** The averaged sales-tax multiplier of the quick estimator (line 481). */
  const QuickTaxMultiplier: real := 1.0752

  /** offsiteAdHandler: 'ignore' or 'factor'. */
  datatype OffsiteAdMode = IgnoreAds | FactorAds

  /** incomeTaxHandler: 'ignore', 'view' or 'factor'. */
  datatype IncomeTaxMode = IgnoreTax | ViewTax | FactorTax

  /** A typed percentage turned into a rate with four decimals (lines 397 and 446):
      the nearest multiple of 0.0001, a tie going away from zero. */
  function RateFromPercent(percent: real): (rate: real)
    ensures FourDecimals(rate)
    ensures percent >= 0.0 ==> percent / 100.0 - 0.00005 < rate <= percent / 100.0 + 0.00005
    ensures percent < 0.0 ==> percent / 100.0 - 0.00005 <= rate < percent / 100.0 + 0.00005
  {
    var k := if percent < 0.0 then -MathRound(-percent * 100.0) else MathRound(percent * 100.0);
    assert FromTenThousandths(k) == k as real / 10000.0;
    k as real / 10000.0
  }

  /** A rate that is a whole number of ten-thousandths. */
  ghost predicate FourDecimals(rate: real) {
    exists k: int :: FromTenThousandths(k) == rate
  }

  function FromTenThousandths(k: int): real {
    k as real / 10000.0
  }

  /** A percentage typed with two decimals becomes its rate exactly (7.52 gives 0.0752). */
  lemma RateOfTwoDecimalPercent(hundredths: int)
    ensures RateFromPercent(hundredths as real / 100.0) == hundredths as real / 10000.0
  {
    var h := hundredths as real;
    var p := h / 100.0;
    assert p * 100.0 == h && -p * 100.0 == -h;
    assert MathRound(h) == hundredths && MathRound(-h) == -hundredths;
  }

  /** getOffsiteAdRate (lines 355-361): nothing while ads are ignored, otherwise the
      selected percentage as a rate. */
  function OffsiteAdRate(mode: OffsiteAdMode, selectedPercent: real): (rate: real)
    ensures mode == IgnoreAds ==> rate == 0.0
    ensures mode == FactorAds ==> rate * 100.0 == selectedPercent
  {
    if mode == IgnoreAds then 0.0 else selectedPercent / 100.0
  }

  /** The income tax to set aside (lines 400-412). In factor mode the labor total is
      grossed up so that, once tax at the given rate is taken from labor plus the
      set-aside, exactly the labor total is left. */
  function IncomeTaxSetAside(mode: IncomeTaxMode, laborTotal: real, rate: real): (amount: real)
    requires mode == FactorTax ==> rate < 1.0
    ensures mode == IgnoreTax ==> amount == 0.0
    ensures mode == ViewTax ==> amount == laborTotal * rate
    ensures mode == FactorTax ==> (laborTotal + amount) * (1.0 - rate) == laborTotal
  {
    match mode
    case IgnoreTax => 0.0
    case ViewTax => laborTotal * rate
    case FactorTax => laborTotal / (1.0 - rate) - laborTotal
  }

  /** In factor mode the set-aside is exactly the tax due on the grossed-up labor. */
  lemma FactorSetAsideIsTaxOnGrossLabor(laborTotal: real, rate: real)
    requires rate < 1.0
    ensures IncomeTaxSetAside(FactorTax, laborTotal, rate) == (laborTotal + IncomeTaxSetAside(FactorTax, laborTotal, rate)) * rate
  {
    var a := IncomeTaxSetAside(FactorTax, laborTotal, rate);
    assert (laborTotal + a) * (1.0 - rate) == laborTotal;
    assert (laborTotal + a) * (1.0 - rate) == (laborTotal + a) - (laborTotal + a) * rate;
  }

  /** The cost basis net (lines 439-444): the value total, except that in income-tax
      factor mode the labor part is grossed up, which adds exactly the set-aside. */
  function CostBasis(mode: IncomeTaxMode, valueTotal: real, expensesTotal: real, laborTotal: real, rate: real): (net: real)
    requires mode == FactorTax ==> rate < 1.0
    ensures mode != FactorTax ==> net == valueTotal
    ensures mode == FactorTax ==> net == expensesTotal + laborTotal + IncomeTaxSetAside(mode, laborTotal, rate)
  {
    if mode == FactorTax then laborTotal / (1.0 - rate) + expensesTotal else valueTotal
  }

  /** The sum of the percentage fees charged on the listing price (lines 448-453):
      the transaction and processing fees always count, so with rates that are not
      negative it is never below their 9.5%. */
  function CompoundRate(mode: OffsiteAdMode, salesTaxRate: real, offsiteAdRate: real): (c: real)
    ensures salesTaxRate >= 0.0 && (mode == FactorAds ==> offsiteAdRate >= 0.0) ==> c >= TransactionRate + ProcessingRate
  {
    if mode == FactorAds
    then TransactionRate + ProcessingRate * (1.0 + salesTaxRate) + offsiteAdRate
    else TransactionRate + ProcessingRate * (1.0 + salesTaxRate)
  }

  /** Ignoring offsite ads prices exactly as a 0% ad rate would, whatever rate is
      selected; factoring them in adds exactly the ad rate. */
  lemma IgnoredAdsCountAsZeroRate(salesTaxRate: real, offsiteAdRate: real)
    ensures CompoundRate(IgnoreAds, salesTaxRate, offsiteAdRate) == CompoundRate(FactorAds, salesTaxRate, 0.0)
    ensures CompoundRate(FactorAds, salesTaxRate, offsiteAdRate) == CompoundRate(IgnoreAds, salesTaxRate, offsiteAdRate) + offsiteAdRate
  {
  }

  /** A higher sales-tax rate or offsite-ad rate never lowers the compound rate. */
  lemma CompoundRateMonotone(mode: OffsiteAdMode, t1: real, t2: real, a1: real, a2: real)
    requires t1 <= t2 && a1 <= a2
    ensures CompoundRate(mode, t1, a1) <= CompoundRate(mode, t2, a2)
  {
  }

  /** The unrounded listing price (line 458): the price from which the percentage
      fees on price plus shipping and the flat fees leave exactly the cost basis. */
  function RawListingPrice(net: real, shipping: real, flatFees: real, compound: real): (raw: real)
    requires compound < 1.0
    ensures raw - compound * (raw + shipping) - flatFees == net
  {
    var d := 1.0 - compound;
    var raw := (net + shipping * compound + flatFees) / d;
    assert raw * d == net + shipping * compound + flatFees;
    raw
  }

  /** The fee breakdown worked forward from the fixed listing price (lines 462-468). */
  datatype Breakdown = Breakdown(
    listingPrice: real,
    taxTotal: real,
    transactionFeeTotal: real,
    processingFeeTotal: real,
    offsiteAdFeeTotal: real,
    customerTotal: real)

  function Forward(listingPrice: real, shipping: real, salesTaxRate: real, offsiteAdRate: real): (b: Breakdown)
    ensures b.listingPrice == listingPrice
    ensures b.customerTotal == listingPrice + shipping + b.taxTotal
    ensures (listingPrice + shipping) * salesTaxRate - 0.005 < b.taxTotal <= (listingPrice + shipping) * salesTaxRate + 0.005
    ensures (listingPrice + shipping + b.taxTotal) * ProcessingRate + ProcessingFeeFlat - 0.005 < b.processingFeeTotal
         <= (listingPrice + shipping + b.taxTotal) * ProcessingRate + ProcessingFeeFlat + 0.005
    ensures listingPrice * TransactionRate - 0.005 < b.transactionFeeTotal <= listingPrice * TransactionRate + 0.005
    ensures (listingPrice + shipping) * offsiteAdRate - 0.005 < b.offsiteAdFeeTotal <= (listingPrice + shipping) * offsiteAdRate + 0.005
    ensures WholeCents(b.taxTotal) && WholeCents(b.transactionFeeTotal) && WholeCents(b.offsiteAdFeeTotal)
    ensures WholeCents(b.processingFeeTotal - ProcessingFeeFlat)
  {
    var subtotal := listingPrice + shipping;
    var tax := Round2(subtotal * salesTaxRate);
    Breakdown(
      listingPrice,
      tax,
      Round2(listingPrice * TransactionRate),
      Round2((subtotal + tax) * ProcessingRate) + ProcessingFeeFlat,
      Round2(subtotal * offsiteAdRate),
      subtotal + tax)
  }

  /** Everything calculateListingPrice reads: the totals shown when it starts, the
      two handlers, and the form's inputs already parsed into rates and amounts. */
  datatype PriceQuery = PriceQuery(
    valueTotal: real,
    expensesTotal: real,
    laborTotal: real,
    listingFeeTotal: real,
    incomeTaxMode: IncomeTaxMode,
    incomeTaxRate: real,
    offsiteAdMode: OffsiteAdMode,
    offsiteAdRate: real,
    shipping: real,
    salesTaxRate: real)

  /** Factor mode divides by 1 - rate once the form is not empty; nothing guards the
      division (line 441), so callers must keep the rate below 100%. */
  predicate Admissible(q: PriceQuery) {
    q.valueTotal > 0.0 && q.incomeTaxMode == FactorTax ==> q.incomeTaxRate < 1.0
  }

  function Compound(q: PriceQuery): real {
    CompoundRate(q.offsiteAdMode, q.salesTaxRate, q.offsiteAdRate)
  }

  function FlatFees(q: PriceQuery): real {
    q.listingFeeTotal + ProcessingFeeFlat
  }

  function Net(q: PriceQuery): real
    requires q.incomeTaxMode == FactorTax ==> q.incomeTaxRate < 1.0
  {
    CostBasis(q.incomeTaxMode, q.valueTotal, q.expensesTotal, q.laborTotal, q.incomeTaxRate)
  }

  function Raw(q: PriceQuery): real
    requires q.incomeTaxMode == FactorTax ==> q.incomeTaxRate < 1.0
    requires Compound(q) < 1.0
  {
    RawListingPrice(Net(q), q.shipping, FlatFees(q), Compound(q))
  }

  /** A form that calculateListingPrice prices: not empty, and fees below 100%. */
  predicate Priceable(q: PriceQuery) {
    && q.valueTotal > 0.0
    && Compound(q) < 1.0
    && (q.incomeTaxMode == FactorTax ==> q.incomeTaxRate < 1.0)
  }

  /** The listing price (line 459): the least whole-cent amount not below the
      unrounded price. */
  function ListingPriceFor(q: PriceQuery): (p: real)
    requires Priceable(q)
    ensures WholeCents(p)
    ensures p >= Raw(q)
    ensures forall k :: FromCents(k) >= Raw(q) ==> FromCents(k) >= p
  {
    CeilToCents(Raw(q))
  }

  /** What calculateListingPrice ends in: an empty form zeroes the outputs, an
      infeasible fee configuration stops after the income-tax set-aside, otherwise
      a priced breakdown. */
  datatype Resolution =
    | Zeroed
    | Infeasible(incomeTax: real)
    | Priced(incomeTax: real, breakdown: Breakdown)

  /** calculateListingPrice's formulas (lines 422-471): which of the three outcomes
      a form reaches, and that a priced outcome breaks down the listing price. */
  function Resolve(q: PriceQuery): (res: Resolution)
    requires Admissible(q)
    ensures res.Zeroed? <==> q.valueTotal <= 0.0
    ensures res.Infeasible? <==> q.valueTotal > 0.0 && Compound(q) >= 1.0
    ensures res.Priced? <==> Priceable(q)
    ensures !res.Zeroed? ==> res.incomeTax == IncomeTaxSetAside(q.incomeTaxMode, q.laborTotal, q.incomeTaxRate)
    ensures res.Priced? ==> res.breakdown == Forward(ListingPriceFor(q), q.shipping, q.salesTaxRate, q.offsiteAdRate)
  {
    if q.valueTotal <= 0.0 then Zeroed
    else
      var incomeTax := IncomeTaxSetAside(q.incomeTaxMode, q.laborTotal, q.incomeTaxRate);
      var compound := Compound(q);
      if 1.0 - compound <= 0.0 then Infeasible(incomeTax)
      else Priced(incomeTax, Forward(ListingPriceFor(q), q.shipping, q.salesTaxRate, q.offsiteAdRate))
  }

  /** A factor known to be positive does not change the sign of a product. */
  lemma PosFactor(y: real, d: real)
    requires d > 0.0 && y * d >= 0.0
    ensures y >= 0.0
  {
  }

  lemma Scale(a: real, b: real, d: real)
    requires a <= b && d >= 0.0
    ensures a * d <= b * d
  {
  }

  /** A price at or above the unrounded one recovers at least the cost basis. */
  lemma RecoveryAbove(n: real, f: real, s: real, c: real, raw: real, p: real)
    requires c < 1.0 && raw - c * (raw + s) - f == n && raw <= p
    ensures p - c * (p + s) - f >= n
  {
    var d := 1.0 - c;
    assert (p - c * (p + s) - f) - n == (p - raw) * d;
    Scale(0.0, p - raw, d);
  }

  /** A price that recovers the cost basis is not below the unrounded one. */
  lemma RecoveryBelow(n: real, f: real, s: real, c: real, raw: real, x: real)
    requires c < 1.0 && raw - c * (raw + s) - f == n && x - c * (x + s) - f >= n
    ensures raw <= x
  {
    var d := 1.0 - c;
    assert (x - raw) * d == (x - c * (x + s) - f) - n;
    PosFactor(x - raw, d);
  }

  /** The listing price recovers the cost basis: after percentage fees on price
      plus shipping and the flat fees, at least the cost basis is left. */
  lemma PriceRecoversCostBasis(q: PriceQuery)
    requires Priceable(q)
    ensures var p := ListingPriceFor(q);
      p - Compound(q) * (p + q.shipping) - FlatFees(q) >= Net(q)
  {
    RecoveryAbove(Net(q), FlatFees(q), q.shipping, Compound(q), Raw(q), ListingPriceFor(q));
  }

  /** No smaller whole-cent price recovers the cost basis. */
  lemma PriceIsLeastRecovering(q: PriceQuery, k: int)
    requires Priceable(q)
    requires FromCents(k) - Compound(q) * (FromCents(k) + q.shipping) - FlatFees(q) >= Net(q)
    ensures FromCents(k) >= ListingPriceFor(q)
  {
    RecoveryBelow(Net(q), FlatFees(q), q.shipping, Compound(q), Raw(q), FromCents(k));
  }

  /** The unrounded price grows with the compound rate while the amount to recover
      (cost basis and flat fees, k, plus shipping) is not negative. */
  lemma RawGrowsWithRate(n: real, f: real, s: real, c1: real, c2: real, r1: real, r2: real)
    requires c1 <= c2 < 1.0 && n + f + s >= 0.0
    requires r1 - c1 * (r1 + s) - f == n && r2 - c2 * (r2 + s) - f == n
    ensures r1 <= r2
  {
    var k := n + f;
    var x1, x2 := r1 + s, r2 + s;
    var d1, d2 := 1.0 - c1, 1.0 - c2;
    assert x1 * d1 == k + s;
    assert x2 * d2 == k + s;
    PosFactor(x2, d2);
    Scale(d2, d1, x2);
    assert (x2 - x1) * d1 == x2 * d1 - x1 * d1;
    PosFactor(x2 - x1, d1);
  }

  /** The unrounded price grows with the shipping cost while the compound rate is
      not negative. */
  lemma RawGrowsWithShipping(k: real, s1: real, s2: real, c: real, r1: real, r2: real)
    requires s1 <= s2 && 0.0 <= c < 1.0
    requires r1 - c * (r1 + s1) == k && r2 - c * (r2 + s2) == k
    ensures r1 <= r2
  {
    var d := 1.0 - c;
    assert (r2 - r1) * d == c * (s2 - s1);
    Scale(0.0, s2 - s1, c);
    PosFactor(r2 - r1, d);
  }

  /** Raising the shipping cost never lowers the listing price. */
  lemma ListingPriceMonotoneInShipping(q: PriceQuery, shipping: real)
    requires Priceable(q) && q.shipping <= shipping && Compound(q) >= 0.0
    ensures Priceable(q.(shipping := shipping))
    ensures ListingPriceFor(q) <= ListingPriceFor(q.(shipping := shipping))
  {
    var q2 := q.(shipping := shipping);
    assert Net(q2) == Net(q) && FlatFees(q2) == FlatFees(q) && Compound(q2) == Compound(q);
    RawGrowsWithShipping(Net(q) + FlatFees(q), q.shipping, shipping, Compound(q), Raw(q), Raw(q2));
    RoundingUpKeepsOrder(q, q2);
  }

  /** Two forms that differ only in what enters the compound rate. */
  lemma ListingPriceMonotoneInCompound(q1: PriceQuery, q2: PriceQuery)
    requires Priceable(q1) && Priceable(q2)
    requires Net(q1) == Net(q2) && FlatFees(q1) == FlatFees(q2) && q1.shipping == q2.shipping
    requires Compound(q1) <= Compound(q2)
    requires Net(q1) + FlatFees(q1) + q1.shipping >= 0.0
    ensures ListingPriceFor(q1) <= ListingPriceFor(q2)
  {
    RawGrowsWithRate(Net(q1), FlatFees(q1), q1.shipping, Compound(q1), Compound(q2), Raw(q1), Raw(q2));
    RoundingUpKeepsOrder(q1, q2);
  }

  /** A lower unrounded price never rounds up to a higher listing price. */
  lemma RoundingUpKeepsOrder(q1: PriceQuery, q2: PriceQuery)
    requires Priceable(q1) && Priceable(q2) && Raw(q1) <= Raw(q2)
    ensures ListingPriceFor(q1) <= ListingPriceFor(q2)
  {
    CeilCentsMonotone(Raw(q1), Raw(q2));
  }

  /** Raising the sales-tax rate never lowers the listing price (while the fees
      stay below 100% and there is something to recover). */
  lemma ListingPriceMonotoneInSalesTax(q: PriceQuery, salesTaxRate: real)
    requires Priceable(q) && Priceable(q.(salesTaxRate := salesTaxRate))
    requires q.salesTaxRate <= salesTaxRate
    requires Net(q) + FlatFees(q) + q.shipping >= 0.0
    ensures ListingPriceFor(q) <= ListingPriceFor(q.(salesTaxRate := salesTaxRate))
  {
    CompoundRateMonotone(q.offsiteAdMode, q.salesTaxRate, salesTaxRate, q.offsiteAdRate, q.offsiteAdRate);
    ListingPriceMonotoneInCompound(q, q.(salesTaxRate := salesTaxRate));
  }

  /** Raising the offsite-ad rate never lowers the listing price (while the fees
      stay below 100% and there is something to recover). */
  lemma ListingPriceMonotoneInAdRate(q: PriceQuery, offsiteAdRate: real)
    requires Priceable(q) && Priceable(q.(offsiteAdRate := offsiteAdRate))
    requires q.offsiteAdRate <= offsiteAdRate
    requires Net(q) + FlatFees(q) + q.shipping >= 0.0
    ensures ListingPriceFor(q) <= ListingPriceFor(q.(offsiteAdRate := offsiteAdRate))
  {
    CompoundRateMonotone(q.offsiteAdMode, q.salesTaxRate, q.salesTaxRate, q.offsiteAdRate, offsiteAdRate);
    ListingPriceMonotoneInCompound(q, q.(offsiteAdRate := offsiteAdRate));
  }

  /** The five fees of a priced breakdown once feesTotal holds them, with the
      shipping-label fee as the shipping input last set it. */
  function FeesOf(q: PriceQuery, b: Breakdown): real {
    q.listingFeeTotal + Round2(q.shipping * ShippingLabelRate)
      + b.processingFeeTotal + b.transactionFeeTotal + b.offsiteAdFeeTotal
  }

  /** With ads ignored the ad rate is 0, so the compound rate is the sum of all
      percentage fees in either mode. */
  lemma CompoundExpanded(q: PriceQuery)
    requires q.offsiteAdMode == IgnoreAds ==> q.offsiteAdRate == 0.0
    ensures Compound(q) == TransactionRate + ProcessingRate * (1.0 + q.salesTaxRate) + q.offsiteAdRate
  {
  }

  /** The fees of one forward breakdown, each within half a cent of its exact
      value, add up to at most two cents over the compound rate on price plus
      shipping and the flat processing fee. */
  lemma FeeSumBound(p: real, s: real, t: real, a: real, c: real,
                    tax: real, processing: real, transaction: real, ad: real, labelFee: real)
    requires c == TransactionRate + ProcessingRate * (1.0 + t) + a
    requires tax <= (p + s) * t + 0.005
    requires processing <= (p + s + tax) * ProcessingRate + ProcessingFeeFlat + 0.005
    requires transaction <= p * TransactionRate + 0.005
    requires ad <= (p + s) * a + 0.005
    requires labelFee <= s * ShippingLabelRate + 0.005
    ensures labelFee + processing + transaction + ad <= c * (p + s) + ProcessingFeeFlat + 0.02015
  {
    var u := p + s;
    assert c * u == 0.065 * u + 0.03 * u + 0.03 * (u * t) + u * a;
    assert (u + tax) * 0.03 <= 0.03 * u + 0.03 * (u * t) + 0.00015;
  }

  /** The forward fees of the solved price stay within about two cents of what the
      price was solved for, so the seller's return covers the cost basis up to that
      rounding. */
  lemma ReturnCoversCostBasis(q: PriceQuery)
    requires Priceable(q)
    requires q.offsiteAdMode == IgnoreAds ==> q.offsiteAdRate == 0.0
    ensures var b := Forward(ListingPriceFor(q), q.shipping, q.salesTaxRate, q.offsiteAdRate);
      b.listingPrice - FeesOf(q, b) >= Net(q) - 0.0202
  {
    PriceRecoversCostBasis(q);
    ReturnAtRecoveringPrice(q, ListingPriceFor(q));
  }

  /** At any price that recovers the cost basis after the compound rate and the flat
      fees, the forward breakdown leaves a return within about two cents of it. */
  lemma ReturnAtRecoveringPrice(q: PriceQuery, p: real)
    requires q.offsiteAdMode == IgnoreAds ==> q.offsiteAdRate == 0.0
    requires q.incomeTaxMode == FactorTax ==> q.incomeTaxRate < 1.0
    requires p - Compound(q) * (p + q.shipping) - FlatFees(q) >= Net(q)
    ensures var b := Forward(p, q.shipping, q.salesTaxRate, q.offsiteAdRate);
      b.listingPrice - FeesOf(q, b) >= Net(q) - 0.0202
  {
    ForwardFeesBound(q, p);
  }

  /** At any price p, the fees of the forward breakdown are at most the compound
      rate on price plus shipping and the flat fees, plus about two cents. */
  lemma ForwardFeesBound(q: PriceQuery, p: real)
    requires q.offsiteAdMode == IgnoreAds ==> q.offsiteAdRate == 0.0
    ensures var b := Forward(p, q.shipping, q.salesTaxRate, q.offsiteAdRate);
      FeesOf(q, b) <= Compound(q) * (p + q.shipping) + FlatFees(q) + 0.02015
  {
    var b := Forward(p, q.shipping, q.salesTaxRate, q.offsiteAdRate);
    CompoundExpanded(q);
    var labelFee := Round2(q.shipping * ShippingLabelRate);
    assert labelFee <= q.shipping * ShippingLabelRate + 0.005;
    FeeSumBound(p, q.shipping, q.salesTaxRate, q.offsiteAdRate, Compound(q),
      b.taxTotal, b.processingFeeTotal, b.transactionFeeTotal, b.offsiteAdFeeTotal, labelFee);
  }

  /** In income-tax factor mode the return left after the set-aside covers the
      value total, up to the same rounding. */
  lemma FactorReturnCoversValue(q: PriceQuery)
    requires Priceable(q) && q.incomeTaxMode == FactorTax
    requires q.offsiteAdMode == IgnoreAds ==> q.offsiteAdRate == 0.0
    requires q.valueTotal == q.expensesTotal + q.laborTotal
    ensures var b := Forward(ListingPriceFor(q), q.shipping, q.salesTaxRate, q.offsiteAdRate);
      b.listingPrice - FeesOf(q, b) - IncomeTaxSetAside(FactorTax, q.laborTotal, q.incomeTaxRate) >= q.valueTotal - 0.0202
  {
    ReturnCoversCostBasis(q);
  }

  /** calculateReturn (lines 477-487): an empty price shows 0 rather than
      a negative return. */
  function QuickReturn(qcListingPrice: real, listingFeeTotal: real): (r: real)
    ensures qcListingPrice == 0.0 ==> r == 0.0
  {
    if qcListingPrice == 0.0 then 0.0
    else
      var processing := Round2(qcListingPrice * QuickTaxMultiplier * ProcessingRate) + ProcessingFeeFlat;
      var transaction := Round2(qcListingPrice * TransactionRate);
      var fees := Round2(processing + transaction + listingFeeTotal);
      qcListingPrice - fees
  }

  /** The quick estimate is the price less its percentage fees (at the averaged
      7.52% sales tax) and flat fees, to within a cent and a half of rounding. */
  lemma QuickReturnNearExact(qcListingPrice: real, listingFeeTotal: real)
    requires qcListingPrice != 0.0
    ensures var exact := qcListingPrice * (1.0 - TransactionRate - QuickTaxMultiplier * ProcessingRate)
                         - ProcessingFeeFlat - listingFeeTotal;
      exact - 0.015 <= QuickReturn(qcListingPrice, listingFeeTotal) < exact + 0.015
  {
    var p := qcListingPrice;
    var x := p * QuickTaxMultiplier * ProcessingRate;
    var y := p * TransactionRate;
    assert x + y == p * (TransactionRate + QuickTaxMultiplier * ProcessingRate);
    var processing := Round2(x) + ProcessingFeeFlat;
    var transaction := Round2(y);
    var total := processing + transaction + listingFeeTotal;
    assert x + y + ProcessingFeeFlat + listingFeeTotal - 0.01 < total <= x + y + ProcessingFeeFlat + listingFeeTotal + 0.01;
    assert total - 0.005 < Round2(total) <= total + 0.005;
    assert QuickReturn(p, listingFeeTotal) == p - Round2(total);
  }

  /** Expenses 10.00, no labor or shipping, 7.52% sales tax, ads and income tax
      ignored: compound rate 0.097256 and listing price 11.58. */
  lemma ExpensesOnlyScenario()
    ensures var q := PriceQuery(10.0, 10.0, 0.0, ListingFeeFlat, IgnoreTax, 0.3, IgnoreAds, 0.0, 0.0, 0.0752);
      Compound(q) == 0.097256 && Resolve(q) == Priced(0.0, Forward(11.58, 0.0, 0.0752, 0.0))
  {
    var q := PriceQuery(10.0, 10.0, 0.0, ListingFeeFlat, IgnoreTax, 0.3, IgnoreAds, 0.0, 0.0, 0.0752);
    var raw := Raw(q);
    assert raw == 10.45 / 0.902744;
    assert 1157.0 < raw * 100.0 <= 1158.0;
    assert CeilCents(raw) == 1158;
  }

  /** The same with 5.00 shipping: the formula gives 12.12. */
  lemma ExpensesWithShippingScenario()
    ensures var q := PriceQuery(10.0, 10.0, 0.0, ListingFeeFlat, IgnoreTax, 0.3, IgnoreAds, 0.0, 5.0, 0.0752);
      Resolve(q).Priced? && Resolve(q).breakdown.listingPrice == 12.12
  {
    var q := PriceQuery(10.0, 10.0, 0.0, ListingFeeFlat, IgnoreTax, 0.3, IgnoreAds, 0.0, 5.0, 0.0752);
    var raw := Raw(q);
    assert raw == 10.93628 / 0.902744;
    assert 1211.0 < raw * 100.0 <= 1212.0;
    assert CeilCents(raw) == 1212;
  }
}

/** The calculator page's state: the totals proxy and the two handler globals
    (offsiteAdHandler, incomeTaxHandler), with the operations that write totals in
    the order the page writes them. What those writes compute is stated by the
    pure formulas of module Pricing; each method here is proved to leave exactly
    the display the formulas call for. */
module Calculator {
  import opened Money
  import opened TotalsProxy
  import opened Pricing
  import LineItems

  /** The listing-price form's inputs, already parsed (a blank field as 0). */
  datatype ListingForm = ListingForm(
    shipping: real,
    salesTaxPercent: real,
    incomeTaxPercent: real,
    selectedAdPercent: real)

  /** The outputs an empty form zeroes (lines 424-431). */
  const ZeroedKeys: set<Total> :=
    {ListingPrice, ProcessingFeeTotal, TransactionFeeTotal, TaxTotal,
     CustomerTotal, OffsiteAdFeeTotal, ShippingLabelFeeTotal, ReturnTotal}

  /** The amount an output reads once the outputs in written have been written
      (the page's five fee outputs). */
  function Reads(written: map<Total, int>, key: Total): real {
    FromCents(Reading(written, StandardFeeKeys, key))
  }

  /** What calculateListingPrice reads from the display, the handlers and the form. */
  function QueryOf(written: map<Total, int>, ad: OffsiteAdMode, tax: IncomeTaxMode, form: ListingForm): PriceQuery {
    PriceQuery(
      Reads(written, ValueTotal), Reads(written, ExpensesTotal), Reads(written, LaborTotal),
      Reads(written, ListingFeeTotal),
      tax, RateFromPercent(form.incomeTaxPercent),
      ad, OffsiteAdRate(ad, form.selectedAdPercent),
      form.shipping, RateFromPercent(form.salesTaxPercent))
  }

  /** The eight zeroing writes of lines 424-431, in their order. */
  function ZeroWrites(w: map<Total, int>): map<Total, int> {
    w[ListingPrice := 0][ProcessingFeeTotal := 0][TransactionFeeTotal := 0][TaxTotal := 0]
     [CustomerTotal := 0][OffsiteAdFeeTotal := 0][ShippingLabelFeeTotal := 0][ReturnTotal := 0]
  }

  /** The write of line 470: the return is the listing price less feesTotal and
      the set-aside as they read at that point. */
  function ReturnWrite(w: map<Total, int>, listingPrice: real): map<Total, int> {
    w[ReturnTotal := ToFixed2Cents(listingPrice - (Reads(w, FeesTotal) + Reads(w, IncomeTaxTotal)))]
  }

  /** The writes of lines 462-470 after the set-aside, in their order, the return
      last. */
  function BreakdownWrites(w: map<Total, int>, b: Breakdown): map<Total, int> {
    var w6 := w[ListingPrice := ToFixed2Cents(b.listingPrice)]
               [TransactionFeeTotal := ToFixed2Cents(b.transactionFeeTotal)]
               [TaxTotal := ToFixed2Cents(b.taxTotal)]
               [ProcessingFeeTotal := ToFixed2Cents(b.processingFeeTotal)]
               [OffsiteAdFeeTotal := ToFixed2Cents(b.offsiteAdFeeTotal)]
               [CustomerTotal := ToFixed2Cents(b.customerTotal)];
    ReturnWrite(w6, b.listingPrice)
  }

  /** A priced run's writes: the set-aside, then the breakdown. */
  function PricedWrites(w: map<Total, int>, incomeTax: real, b: Breakdown): map<Total, int> {
    BreakdownWrites(w[IncomeTaxTotal := ToFixed2Cents(incomeTax)], b)
  }

  /** An empty form shows 0 in the eight zeroed outputs; feesTotal then reads the
      listing fee alone, and every other output reads as before. */
  lemma ZeroingOutputs(w: map<Total, int>)
    ensures var r := ZeroWrites(w);
      && (forall k :: k in ZeroedKeys ==> Reading(r, StandardFeeKeys, k) == 0)
      && Reading(r, StandardFeeKeys, FeesTotal) == CentsIn(w, ListingFeeTotal)
      && (forall k :: k !in ZeroedKeys && k != FeesTotal ==> Reading(r, StandardFeeKeys, k) == Reading(w, StandardFeeKeys, k))
  {
    var r := ZeroWrites(w);
    StandardFeesTotal(r);
  }

  /** After a priced run the set-aside and the whole breakdown read as computed. */
  lemma PricingShowsBreakdown(w: map<Total, int>, incomeTax: real, b: Breakdown)
    ensures var r := PricedWrites(w, incomeTax, b);
      && Reading(r, StandardFeeKeys, IncomeTaxTotal) == ToFixed2Cents(incomeTax)
      && Reading(r, StandardFeeKeys, ListingPrice) == ToFixed2Cents(b.listingPrice)
      && Reading(r, StandardFeeKeys, TaxTotal) == ToFixed2Cents(b.taxTotal)
      && Reading(r, StandardFeeKeys, CustomerTotal) == ToFixed2Cents(b.customerTotal)
      && Reading(r, StandardFeeKeys, ProcessingFeeTotal) == ToFixed2Cents(b.processingFeeTotal)
      && Reading(r, StandardFeeKeys, TransactionFeeTotal) == ToFixed2Cents(b.transactionFeeTotal)
      && Reading(r, StandardFeeKeys, OffsiteAdFeeTotal) == ToFixed2Cents(b.offsiteAdFeeTotal)
  {
  }

  /** After a priced run feesTotal reads the sum of the five fee outputs, with the
      shipping-label fee left as it was (it is not recomputed here), and the
      return reads the listing price less the fees and the set-aside as finally
      shown. */
  lemma PricingFeesAndReturn(w: map<Total, int>, incomeTax: real, b: Breakdown)
    ensures var r := PricedWrites(w, incomeTax, b);
      && Reading(r, StandardFeeKeys, FeesTotal) == CentsIn(w, ListingFeeTotal) + ToFixed2Cents(b.processingFeeTotal)
           + ToFixed2Cents(b.transactionFeeTotal) + CentsIn(w, ShippingLabelFeeTotal) + ToFixed2Cents(b.offsiteAdFeeTotal)
      && Reading(r, StandardFeeKeys, ReturnTotal) == ToFixed2Cents(b.listingPrice - (Reads(r, FeesTotal) + Reads(r, IncomeTaxTotal)))
  {
    var w0 := w[IncomeTaxTotal := ToFixed2Cents(incomeTax)];
    var w6 := w0[ListingPrice := ToFixed2Cents(b.listingPrice)]
               [TransactionFeeTotal := ToFixed2Cents(b.transactionFeeTotal)]
               [TaxTotal := ToFixed2Cents(b.taxTotal)]
               [ProcessingFeeTotal := ToFixed2Cents(b.processingFeeTotal)]
               [OffsiteAdFeeTotal := ToFixed2Cents(b.offsiteAdFeeTotal)]
               [CustomerTotal := ToFixed2Cents(b.customerTotal)];
    var r := PricedWrites(w, incomeTax, b);
    StandardFeesTotal(r);
    SumCentsFrame(w6, StandardFeeKeys, ReturnTotal, CentsIn(r, ReturnTotal));
  }

  /** A priced run leaves the line-item totals, the listing fee, the
      shipping-label fee and the quick estimate reading as they did. */
  lemma PricingLeavesRest(w: map<Total, int>, incomeTax: real, b: Breakdown)
    ensures var r := PricedWrites(w, incomeTax, b);
      && Reading(r, StandardFeeKeys, ExpensesTotal) == Reading(w, StandardFeeKeys, ExpensesTotal)
      && Reading(r, StandardFeeKeys, LaborTotal) == Reading(w, StandardFeeKeys, LaborTotal)
      && Reading(r, StandardFeeKeys, LaborHoursTotal) == Reading(w, StandardFeeKeys, LaborHoursTotal)
      && Reading(r, StandardFeeKeys, ValueTotal) == Reading(w, StandardFeeKeys, ValueTotal)
      && Reading(r, StandardFeeKeys, ListingFeeTotal) == Reading(w, StandardFeeKeys, ListingFeeTotal)
      && Reading(r, StandardFeeKeys, ShippingLabelFeeTotal) == Reading(w, StandardFeeKeys, ShippingLabelFeeTotal)
      && Reading(r, StandardFeeKeys, QcReturn) == Reading(w, StandardFeeKeys, QcReturn)
  {
  }

  /** At start-up the listing fee reads 0.20, and so does feesTotal; every other
      output reads 0 (line 175). */
  lemma StartupDisplay()
    ensures var r := map[][ListingFeeTotal := ToFixed2Cents(ListingFeeFlat)];
      && Reads(r, ListingFeeTotal) == 0.20 && Reads(r, FeesTotal) == 0.20
      && forall k :: k != ListingFeeTotal && k != FeesTotal ==> Reads(r, k) == 0.0
  {
    var r := map[][ListingFeeTotal := ToFixed2Cents(ListingFeeFlat)];
    StandardFeesTotal(r);
  }

  class Session {
    const totals: Totals
    var offsiteAdHandler: OffsiteAdMode
    var incomeTaxHandler: IncomeTaxMode

    ghost predicate Valid()
      reads this, totals
    {
      totals.feeKeys == StandardFeeKeys && totals.Valid()
    }

    /** Page load: both handlers 'ignore' (lines 333 and 374), then the listing
        fee written once (line 175). */
    constructor ()
      ensures Valid() && fresh(totals)
      ensures offsiteAdHandler == IgnoreAds && incomeTaxHandler == IgnoreTax
      ensures totals.written == map[][ListingFeeTotal := ToFixed2Cents(ListingFeeFlat)]
    {
      StandardFeeKeysWellFormed();
      totals := new Totals(StandardFeeKeys);
      offsiteAdHandler := IgnoreAds;
      incomeTaxHandler := IgnoreTax;
      new;
      totals.Set(ListingFeeTotal, ListingFeeFlat);
    }

    /** setOffsiteAdHandler (lines 335-339). */
    method SetOffsiteAdHandler(mode: OffsiteAdMode)
      requires Valid()
      modifies this
      ensures Valid()
      ensures offsiteAdHandler == mode && incomeTaxHandler == old(incomeTaxHandler)
    {
      offsiteAdHandler := mode;
    }

    /** setIncomeTaxHandler (lines 376-380). */
    method SetIncomeTaxHandler(mode: IncomeTaxMode)
      requires Valid()
      modifies this
      ensures Valid()
      ensures incomeTaxHandler == mode && offsiteAdHandler == old(offsiteAdHandler)
    {
      incomeTaxHandler := mode;
    }

    /** updateLineItemListTotal (lines 277-289): the list's total becomes the sum of
        its items' subtotals, through the set trap. */
    method UpdateLineItemListTotal(items: seq<seq<real>>, totalKey: Total) returns (subtotals: seq<real>)
      requires Valid() && totalKey != ValueTotal && totalKey != FeesTotal
      modifies totals
      ensures Valid()
      ensures subtotals == LineItems.Subtotals(items)
      ensures totals.written == old(totals.written)[totalKey := ToFixed2Cents(LineItems.Sum(subtotals))]
    {
      var total;
      subtotals, total := LineItems.ListTotal(items);
      totals.Set(totalKey, total);
    }

    /** updateAllLineItemLists (lines 300-303): expenses, then labor. */
    method UpdateAllLineItemLists(expenses: seq<seq<real>>, labor: seq<seq<real>>)
      requires Valid()
      modifies totals
      ensures Valid()
      ensures totals.written == old(totals.written)
                [ExpensesTotal := ToFixed2Cents(LineItems.Sum(LineItems.Subtotals(expenses)))]
                [LaborTotal := ToFixed2Cents(LineItems.Sum(LineItems.Subtotals(labor)))]
    {
      var es := UpdateLineItemListTotal(expenses, ExpensesTotal);
      var ls := UpdateLineItemListTotal(labor, LaborTotal);
    }

    /** getTotalLaborHours (lines 306-313). */
    method GetTotalLaborHours(hours: seq<real>)
      requires Valid()
      modifies totals
      ensures Valid()
      ensures totals.written == old(totals.written)[LaborHoursTotal := ToFixed2Cents(FromCents(LineItems.HoursCents(hours)))]
    {
      var total := LineItems.TotalLaborHours(hours);
      totals.Set(LaborHoursTotal, total);
    }

    /** The shipping input handler (lines 324-327): the shipping-label fee is
        6.5% of the shipping cost, rounded with round2. */
    method UpdateShippingLabelFee(shippingCost: real)
      requires Valid()
      modifies totals
      ensures Valid()
      ensures totals.written == old(totals.written)[ShippingLabelFeeTotal := ToFixed2Cents(Round2(shippingCost * ShippingLabelRate))]
    {
      totals.Set(ShippingLabelFeeTotal, Round2(shippingCost * ShippingLabelRate));
    }

    /** calculateIncomeTax (lines 396-416): shows the set-aside for the current
        handler and returns the rate. */
    method CalculateIncomeTax(incomeTaxPercent: real) returns (rate: real)
      requires Valid()
      requires incomeTaxHandler == FactorTax ==> RateFromPercent(incomeTaxPercent) < 1.0
      modifies totals
      ensures Valid() && rate == RateFromPercent(incomeTaxPercent)
      ensures totals.written == old(totals.written)[IncomeTaxTotal :=
                ToFixed2Cents(IncomeTaxSetAside(incomeTaxHandler, Reads(old(totals.written), LaborTotal), rate))]
    {
      rate := RateFromPercent(incomeTaxPercent);
      var amount := IncomeTaxSetAside(incomeTaxHandler, totals.Get(LaborTotal), rate);
      totals.Set(IncomeTaxTotal, amount);
    }

    /** Lines 424-431. */
    method ZeroOutputs()
      requires Valid()
      modifies totals
      ensures Valid() && totals.written == ZeroWrites(old(totals.written))
    {
      totals.Set(ListingPrice, 0.0);
      totals.Set(ProcessingFeeTotal, 0.0);
      totals.Set(TransactionFeeTotal, 0.0);
      totals.Set(TaxTotal, 0.0);
      totals.Set(CustomerTotal, 0.0);
      totals.Set(OffsiteAdFeeTotal, 0.0);
      totals.Set(ShippingLabelFeeTotal, 0.0);
      totals.Set(ReturnTotal, 0.0);
    }

    /** Lines 462-470: the breakdown of the fixed listing price (the formulas of
        Forward), written output by output, the return last. */
    method WriteBreakdown(listingPrice: real, shipping: real, salesTaxRate: real, offsiteAdRate: real)
      requires Valid()
      modifies totals
      ensures Valid()
      ensures totals.written == BreakdownWrites(old(totals.written), Forward(listingPrice, shipping, salesTaxRate, offsiteAdRate))
    {
      var b := Forward(listingPrice, shipping, salesTaxRate, offsiteAdRate);
      totals.Set(ListingPrice, b.listingPrice);
      totals.Set(TransactionFeeTotal, b.transactionFeeTotal);
      totals.Set(TaxTotal, b.taxTotal);
      totals.Set(ProcessingFeeTotal, b.processingFeeTotal);
      totals.Set(OffsiteAdFeeTotal, b.offsiteAdFeeTotal);
      totals.Set(CustomerTotal, b.customerTotal);
      UpdateReturn(listingPrice);
    }

    /** Line 470. */
    method UpdateReturn(listingPrice: real)
      requires Valid()
      modifies totals
      ensures Valid() && totals.written == ReturnWrite(old(totals.written), listingPrice)
    {
      var returnTotal := listingPrice - (totals.Get(FeesTotal) + totals.Get(IncomeTaxTotal));
      totals.Set(ReturnTotal, returnTotal);
    }

    /** calculateListingPrice (lines 422-471). An empty form zeroes the outputs;
        otherwise the set-aside is shown, and then either nothing more (fees at or
        above 100%) or the whole breakdown of the solved listing price. */
    method CalculateListingPrice(form: ListingForm)
      requires Valid()
      requires Admissible(QueryOf(totals.written, offsiteAdHandler, incomeTaxHandler, form))
      modifies totals
      ensures Valid()
      ensures totals.written ==
        match Resolve(QueryOf(old(totals.written), offsiteAdHandler, incomeTaxHandler, form))
        case Zeroed => ZeroWrites(old(totals.written))
        case Infeasible(incomeTax) => old(totals.written)[IncomeTaxTotal := ToFixed2Cents(incomeTax)]
        case Priced(incomeTax, b) => PricedWrites(old(totals.written), incomeTax, b)
    {
      ghost var q := QueryOf(totals.written, offsiteAdHandler, incomeTaxHandler, form);
      if totals.Get(ValueTotal) <= 0.0 {
        ZeroOutputs();
        return;
      }
      var incomeTaxRate := CalculateIncomeTax(form.incomeTaxPercent);
      var offsiteAdRate := OffsiteAdRate(offsiteAdHandler, form.selectedAdPercent);
      var totalFlatFees := totals.Get(ListingFeeTotal) + ProcessingFeeFlat;
      var net := CostBasis(incomeTaxHandler, totals.Get(ValueTotal), totals.Get(ExpensesTotal), totals.Get(LaborTotal), incomeTaxRate);
      var salesTaxRate := RateFromPercent(form.salesTaxPercent);
      var compoundRate := CompoundRate(offsiteAdHandler, salesTaxRate, offsiteAdRate);
      var denominator := 1.0 - compoundRate;
      if denominator <= 0.0 {
        return;
      }
      var listingPriceRaw := RawListingPrice(net, form.shipping, totalFlatFees, compoundRate);
      var listingPrice := CeilToCents(listingPriceRaw);
      assert listingPrice == ListingPriceFor(q);
      WriteBreakdown(listingPrice, form.shipping, salesTaxRate, offsiteAdRate);
    }

    /** calculateReturn (lines 477-487): the quick estimate, through the set trap. */
    method CalculateReturn(qcListingPrice: real)
      requires Valid()
      modifies totals
      ensures Valid()
      ensures totals.written == old(totals.written)[QcReturn :=
                ToFixed2Cents(QuickReturn(qcListingPrice, Reads(old(totals.written), ListingFeeTotal)))]
    {
      if qcListingPrice == 0.0 {
        totals.Set(QcReturn, 0.0);
        return;
      }
      totals.Set(QcReturn, QuickReturn(qcListingPrice, totals.Get(ListingFeeTotal)));
    }
  }
}

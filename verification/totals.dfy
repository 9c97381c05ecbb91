/** The live totals of the calculator (src/scripts.js:121-175). Each named total is
    an output on the page showing a two-decimal number; writing a total stores the
    value as that text, reading it parses the text back (0 when nothing is shown).
    Writing one of valueTotal's inputs recomputes valueTotal, and writing a fee
    total recomputes feesTotal. */
module TotalsProxy {
  import opened Money

  /** The named totals the page displays (the comment at lines 121-146). */
  datatype Total =
    | ExpensesTotal | LaborTotal | LaborHoursTotal | ValueTotal
    | ListingFeeTotal | ProcessingFeeTotal | TransactionFeeTotal | ShippingLabelFeeTotal | OffsiteAdFeeTotal
    | FeesTotal | ListingPrice | ReturnTotal | TaxTotal | CustomerTotal | IncomeTaxTotal | QcReturn

  /** The totals valueTotal is the sum of (line 148). */
  const ValueTotalDependencies: seq<Total> := [ExpensesTotal, LaborTotal]

  /** Whether writing key recomputes valueTotal (line 167). */
  predicate FeedsValueTotal(key: Total) {
    key.ExpensesTotal? || key.LaborTotal?
  }

  /** The keys that recompute valueTotal are exactly the ones it sums. */
  lemma FeedsValueTotalIsListed(key: Total)
    ensures FeedsValueTotal(key) <==> key in ValueTotalDependencies
  {
  }

  /** The five fee outputs the page marks as fees. */
  const StandardFeeKeys: seq<Total> :=
    [ListingFeeTotal, ProcessingFeeTotal, TransactionFeeTotal, ShippingLabelFeeTotal, OffsiteAdFeeTotal]

  /** The named totals that are not fee outputs. */
  const OtherTotals: set<Total> :=
    {ExpensesTotal, LaborTotal, LaborHoursTotal, ValueTotal, FeesTotal, ListingPrice,
     ReturnTotal, TaxTotal, CustomerTotal, IncomeTaxTotal, QcReturn}

  /** The fee keys the page can supply: none of them is another named total (in
      particular feesTotal is not its own input). */
  predicate FeeKeysWellFormed(feeKeys: seq<Total>) {
    forall k :: k in feeKeys ==> k !in OtherTotals
  }

  /** The page's five fee outputs are none of the other totals. */
  lemma StandardFeeKeysWellFormed()
    ensures FeeKeysWellFormed(StandardFeeKeys)
  {
  }

  /** The cents an output shows; an output never written shows 0. */
  function CentsIn(shown: map<Total, int>, key: Total): int {
    if key in shown then shown[key] else 0
  }

  /** The get trap on a given display: the amount an output shows. */
  function Amount(shown: map<Total, int>, key: Total): real {
    FromCents(CentsIn(shown, key))
  }

  /** Sum of the cents shown for keys, folded from the left like Array.prototype.reduce. */
  function SumCents(shown: map<Total, int>, keys: seq<Total>): int {
    if keys == [] then 0 else SumCents(shown, keys[..|keys| - 1]) + CentsIn(shown, keys[|keys| - 1])
  }

  /** Writing a total that is not among keys leaves their sum alone. */
  lemma {:induction false} SumCentsFrame(shown: map<Total, int>, keys: seq<Total>, key: Total, v: int)
    requires key !in keys
    ensures SumCents(shown[key := v], keys) == SumCents(shown, keys)
  {
    if keys != [] {
      SumCentsFrame(shown, keys[..|keys| - 1], key, v);
    }
  }

  /** Before anything is written every sum is 0. */
  lemma {:induction false} SumCentsNothingShown(keys: seq<Total>)
    ensures SumCents(map[], keys) == 0
  {
    if keys != [] {
      SumCentsNothingShown(keys[..|keys| - 1]);
    }
  }

  /** valueTotal and feesTotal agree with the totals they are computed from. */
  predicate Consistent(shown: map<Total, int>, feeKeys: seq<Total>) {
    && CentsIn(shown, ValueTotal) == CentsIn(shown, ExpensesTotal) + CentsIn(shown, LaborTotal)
    && CentsIn(shown, FeesTotal) == SumCents(shown, feeKeys)
  }

  /** What the outputs show after the proxy's set trap stores value under key
      (lines 161-173): the key's own text, then valueTotal if key feeds it, then
      feesTotal if key is a fee. */
  function AfterSet(shown: map<Total, int>, feeKeys: seq<Total>, key: Total, value: real): (r: map<Total, int>)
    ensures r.Keys == shown.Keys + {key}
      + (if FeedsValueTotal(key) then {ValueTotal} else {})
      + (if key in feeKeys then {FeesTotal} else {})
    ensures key != ValueTotal && key != FeesTotal ==> r[key] == ToFixed2Cents(value)
    ensures forall k :: k in shown && k != key && k != ValueTotal && k != FeesTotal ==> r[k] == shown[k]
  {
    var written := shown[key := ToFixed2Cents(value)];
    var valued :=
      if FeedsValueTotal(key)
      then written[ValueTotal := CentsIn(written, ExpensesTotal) + CentsIn(written, LaborTotal)]
      else written;
    if key in feeKeys then valued[FeesTotal := SumCents(valued, feeKeys)] else valued
  }

  /** A write shows the value with two decimals under its key; valueTotal is
      recomputed when the key feeds it and feesTotal when the key is a fee; every
      other output keeps what it showed. */
  lemma SetEffect(shown: map<Total, int>, feeKeys: seq<Total>, key: Total, value: real)
    requires FeeKeysWellFormed(feeKeys)
    ensures var r := AfterSet(shown, feeKeys, key, value);
      && (key != ValueTotal && key != FeesTotal ==> CentsIn(r, key) == ToFixed2Cents(value))
      && (FeedsValueTotal(key) ==>
            CentsIn(r, ValueTotal) == CentsIn(r, ExpensesTotal) + CentsIn(r, LaborTotal))
      && (key in feeKeys ==> CentsIn(r, FeesTotal) == SumCents(r, feeKeys))
      && (!FeedsValueTotal(key) && key != ValueTotal ==> CentsIn(r, ValueTotal) == CentsIn(shown, ValueTotal))
      && (key !in feeKeys && key != FeesTotal ==> CentsIn(r, FeesTotal) == CentsIn(shown, FeesTotal))
      && (forall k :: k != key && k != ValueTotal && k != FeesTotal ==> CentsIn(r, k) == CentsIn(shown, k))
  {
    SetRecomputes(shown, feeKeys, key, value);
    var r := AfterSet(shown, feeKeys, key, value);
    forall k | k != key && k != ValueTotal && k != FeesTotal
      ensures CentsIn(r, k) == CentsIn(shown, k)
    {
      assert k in r <==> k in shown;
    }
  }

  /** The two computed totals after a write: recomputed when the key feeds them,
      otherwise as they were. */
  lemma SetRecomputes(shown: map<Total, int>, feeKeys: seq<Total>, key: Total, value: real)
    requires FeeKeysWellFormed(feeKeys)
    ensures var r := AfterSet(shown, feeKeys, key, value);
      && (FeedsValueTotal(key) ==>
            CentsIn(r, ValueTotal) == CentsIn(r, ExpensesTotal) + CentsIn(r, LaborTotal))
      && (key in feeKeys ==> CentsIn(r, FeesTotal) == SumCents(r, feeKeys))
      && (!FeedsValueTotal(key) && key != ValueTotal ==> CentsIn(r, ValueTotal) == CentsIn(shown, ValueTotal))
      && (key !in feeKeys && key != FeesTotal ==> CentsIn(r, FeesTotal) == CentsIn(shown, FeesTotal))
  {
    var written := shown[key := ToFixed2Cents(value)];
    var valued :=
      if FeedsValueTotal(key)
      then written[ValueTotal := CentsIn(written, ExpensesTotal) + CentsIn(written, LaborTotal)]
      else written;
    if key in feeKeys {
      SumCentsFrame(valued, feeKeys, FeesTotal, SumCents(valued, feeKeys));
    }
  }

  /** Any write to a total other than the two computed ones keeps valueTotal and
      feesTotal in agreement with their inputs. */
  lemma SetKeepsConsistent(shown: map<Total, int>, feeKeys: seq<Total>, key: Total, value: real)
    requires FeeKeysWellFormed(feeKeys) && Consistent(shown, feeKeys)
    requires key != ValueTotal && key != FeesTotal
    ensures Consistent(AfterSet(shown, feeKeys, key, value), feeKeys)
  {
    var r := AfterSet(shown, feeKeys, key, value);
    SetEffect(shown, feeKeys, key, value);
    if key !in feeKeys {
      var written := shown[key := ToFixed2Cents(value)];
      SumCentsFrame(shown, feeKeys, key, ToFixed2Cents(value));
      if FeedsValueTotal(key) {
        var valued := written[ValueTotal := CentsIn(written, ExpensesTotal) + CentsIn(written, LaborTotal)];
        SumCentsFrame(written, feeKeys, ValueTotal, CentsIn(written, ExpensesTotal) + CentsIn(written, LaborTotal));
        assert r == valued;
      } else {
        assert r == written;
      }
    }
  }

  /** With the page's five fee outputs, the fee sum is their plain sum. */
  lemma StandardFeesTotal(shown: map<Total, int>)
    ensures SumCents(shown, StandardFeeKeys) ==
      CentsIn(shown, ListingFeeTotal) + CentsIn(shown, ProcessingFeeTotal) + CentsIn(shown, TransactionFeeTotal)
      + CentsIn(shown, ShippingLabelFeeTotal) + CentsIn(shown, OffsiteAdFeeTotal)
  {
    var ks := StandardFeeKeys;
    var k1, k2, k3, k4 := ks[..1], ks[..2], ks[..3], ks[..4];
    assert k1[..0] == [] && k2[..1] == k1 && k3[..2] == k2 && k4[..3] == k3 && ks[..4] == k4;
    assert SumCents(shown, k1) == CentsIn(shown, ListingFeeTotal);
    assert SumCents(shown, k2) == SumCents(shown, k1) + CentsIn(shown, ProcessingFeeTotal);
    assert SumCents(shown, k3) == SumCents(shown, k2) + CentsIn(shown, TransactionFeeTotal);
    assert SumCents(shown, k4) == SumCents(shown, k3) + CentsIn(shown, ShippingLabelFeeTotal);
  }

  /** Two displays that agree on keys have the same sum over keys. */
  lemma {:induction false} SumCentsAgree(a: map<Total, int>, b: map<Total, int>, keys: seq<Total>)
    requires forall k :: k in keys ==> CentsIn(a, k) == CentsIn(b, k)
    ensures SumCents(a, keys) == SumCents(b, keys)
  {
    if keys != [] {
      SumCentsAgree(a, b, keys[..|keys| - 1]);
    }
  }

  /** What an output reads, given the cents last written to each output that is
      written directly: valueTotal and feesTotal read as the sums the set trap
      keeps them at, every other output as its own written text (0 if none). */
  function Reading(written: map<Total, int>, feeKeys: seq<Total>, key: Total): int {
    if key.ValueTotal? then CentsIn(written, ExpensesTotal) + CentsIn(written, LaborTotal)
    else if key.FeesTotal? then SumCents(written, feeKeys)
    else CentsIn(written, key)
  }

  /** A display that reads as the written outputs say is consistent. */
  lemma ReadingIsConsistent(shown: map<Total, int>, written: map<Total, int>, feeKeys: seq<Total>)
    requires FeeKeysWellFormed(feeKeys)
    requires forall k :: CentsIn(shown, k) == Reading(written, feeKeys, k)
    ensures Consistent(shown, feeKeys)
  {
    assert CentsIn(shown, ExpensesTotal) == Reading(written, feeKeys, ExpensesTotal);
    assert CentsIn(shown, LaborTotal) == Reading(written, feeKeys, LaborTotal);
    forall k | k in feeKeys
      ensures CentsIn(shown, k) == CentsIn(written, k)
    {
      assert CentsIn(shown, k) == Reading(written, feeKeys, k);
    }
    SumCentsAgree(shown, written, feeKeys);
    assert CentsIn(shown, FeesTotal) == Reading(written, feeKeys, FeesTotal);
  }

  /** One set-trap write keeps the display reading as the written outputs say,
      with the new text recorded under key. */
  lemma SetKeepsReading(shown: map<Total, int>, written: map<Total, int>, feeKeys: seq<Total>, key: Total, value: real)
    requires FeeKeysWellFormed(feeKeys)
    requires key != ValueTotal && key != FeesTotal
    requires forall k :: CentsIn(shown, k) == Reading(written, feeKeys, k)
    ensures var r := AfterSet(shown, feeKeys, key, value);
      forall k :: CentsIn(r, k) == Reading(written[key := ToFixed2Cents(value)], feeKeys, k)
  {
    var r := AfterSet(shown, feeKeys, key, value);
    var w := written[key := ToFixed2Cents(value)];
    SetEffect(shown, feeKeys, key, value);
    forall k | k != ValueTotal && k != FeesTotal
      ensures CentsIn(r, k) == CentsIn(w, k)
    {
      if k != key {
        assert CentsIn(shown, k) == Reading(written, feeKeys, k);
      }
    }
    assert CentsIn(r, ValueTotal) == Reading(w, feeKeys, ValueTotal) by {
      if !FeedsValueTotal(key) {
        assert CentsIn(shown, ValueTotal) == Reading(written, feeKeys, ValueTotal);
      }
    }
    assert CentsIn(r, FeesTotal) == Reading(w, feeKeys, FeesTotal) by {
      if key in feeKeys {
        SumCentsAgree(r, w, feeKeys);
      } else {
        assert CentsIn(shown, FeesTotal) == Reading(written, feeKeys, FeesTotal);
        SumCentsFrame(written, feeKeys, key, ToFixed2Cents(value));
      }
    }
    forall k
      ensures CentsIn(r, k) == Reading(w, feeKeys, k)
    {
    }
  }

  /** The totals proxy: the displayed text of every named total, in whole cents. */
  class Totals {
    const feeKeys: seq<Total>
    /** The text of every output, as whole cents. */
    var shown: map<Total, int>
    /** The text last written to each output other than the two computed ones. */
    ghost var written: map<Total, int>

    /** The display reads as the written outputs say; in particular valueTotal and
        feesTotal agree with their inputs. */
    ghost predicate Valid()
      reads this
    {
      && FeeKeysWellFormed(feeKeys)
      && forall k :: CentsIn(shown, k) == Reading(written, feeKeys, k)
    }

    constructor (feeKeys: seq<Total>)
      requires FeeKeysWellFormed(feeKeys)
      ensures Valid() && this.feeKeys == feeKeys && written == map[]
    {
      this.feeKeys := feeKeys;
      shown := map[];
      written := map[];
      SumCentsNothingShown(feeKeys);
    }

    /** The get trap (lines 155-159): the parsed text, or 0 when nothing is shown. */
    function Get(key: Total): (r: real)
      reads this
      ensures key !in shown ==> r == 0.0
      ensures Valid() ==> r == FromCents(Reading(written, feeKeys, key))
    {
      Amount(shown, key)
    }

    /** The sum of reading each of keys, as the reduce calls of lines 149 and 152 do. */
    method SumOf(keys: seq<Total>) returns (sum: real)
      ensures sum == FromCents(SumCents(shown, keys))
    {
      sum := 0.0;
      var i := 0;
      while i < |keys|
        invariant 0 <= i <= |keys|
        invariant sum == FromCents(SumCents(shown, keys[..i]))
      {
        assert keys[..i + 1][..i] == keys[..i];
        FromCentsAdd(SumCents(shown, keys[..i]), CentsIn(shown, keys[i]));
        sum := sum + Get(keys[i]);
        i := i + 1;
      }
      assert keys[..i] == keys;
    }

    /** Lines 162-164: the output's text becomes the value with two decimals. */
    method Write(key: Total, value: real)
      modifies this
      ensures shown == old(shown)[key := ToFixed2Cents(value)] && written == old(written)
    {
      shown := shown[key := ToFixed2Cents(value)];
    }

    /** updateValueTotal (line 149). */
    method UpdateValueTotal()
      modifies this
      ensures shown == old(shown)[ValueTotal := CentsIn(old(shown), ExpensesTotal) + CentsIn(old(shown), LaborTotal)]
      ensures written == old(written)
    {
      var sum := SumOf(ValueTotalDependencies);
      var deps := ValueTotalDependencies;
      assert deps[..1] == [ExpensesTotal] && deps[..1][..0] == [];
      assert SumCents(shown, deps[..1]) == CentsIn(shown, ExpensesTotal);
      assert SumCents(shown, deps) == CentsIn(shown, ExpensesTotal) + CentsIn(shown, LaborTotal);
      FixedOfCents(SumCents(shown, ValueTotalDependencies));
      Write(ValueTotal, sum);
    }

    /** updateFeeTotal (line 152). */
    method UpdateFeeTotal()
      modifies this
      ensures shown == old(shown)[FeesTotal := SumCents(old(shown), feeKeys)] && written == old(written)
    {
      var sum := SumOf(feeKeys);
      FixedOfCents(SumCents(shown, feeKeys));
      Write(FeesTotal, sum);
    }

    /** The set trap (lines 161-173), for every total except the two it computes
        itself: the consistency of valueTotal and feesTotal is kept. */
    method Set(key: Total, value: real)
      requires Valid()
      requires key != ValueTotal && key != FeesTotal
      modifies this
      ensures Valid() && Consistent(shown, feeKeys)
      ensures shown == AfterSet(old(shown), feeKeys, key, value)
      ensures written == old(written)[key := ToFixed2Cents(value)]
    {
      SetKeepsReading(shown, written, feeKeys, key, value);
      ghost var target := AfterSet(shown, feeKeys, key, value);
      written := written[key := ToFixed2Cents(value)];
      Write(key, value);
      if FeedsValueTotal(key) {
        UpdateValueTotal();
      }
      if key in feeKeys {
        UpdateFeeTotal();
      }
      assert shown == target;
      ReadingIsConsistent(shown, written, feeKeys);
    }
  }
}

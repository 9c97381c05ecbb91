/** The two dynamic line-item lists (expenses: quantity and cost; labor: hours and
    rate). Each item's numeric fields arrive already parsed, a blank or
    non-numeric field as 0. An item's subtotal is the product of its fields, and a
    list's total is the sum of its subtotals (src/scripts.js:277-289). */
module LineItems {
  import opened Money

  /** The product of the fields, folded from the left from 1. */
  function Product(fields: seq<real>): real {
    if fields == [] then 1.0 else Product(fields[..|fields| - 1]) * fields[|fields| - 1]
  }

  /** An item's subtotal: the product of its fields, but 0 (not 1) for an item
      without numeric fields, since the fold then starts from 0. */
  function Subtotal(fields: seq<real>): (r: real)
    ensures fields == [] ==> r == 0.0
  {
    if fields == [] then 0.0 else Product(fields)
  }

  /** A two-field item (quantity and cost, or hours and rate) gives their product. */
  lemma TwoFieldSubtotal(first: real, second: real)
    ensures Subtotal([first, second]) == first * second
  {
    assert [first, second][..1] == [first];
    assert [first][..0] == [];
    assert Product([first]) == first;
    assert Product([first, second]) == Product([first]) * second;
  }

  /** The sum of amounts, folded from the left from 0. */
  function Sum(xs: seq<real>): real {
    if xs == [] then 0.0 else Sum(xs[..|xs| - 1]) + xs[|xs| - 1]
  }

  /** A single blank (zero) field zeroes the whole line. */
  lemma {:induction false} ZeroFieldZeroesProduct(fields: seq<real>, i: int)
    requires 0 <= i < |fields| && fields[i] == 0.0
    ensures Product(fields) == 0.0
  {
    var n := |fields| - 1;
    if i < n {
      assert fields[..n][i] == fields[i];
      ZeroFieldZeroesProduct(fields[..n], i);
    }
  }

  lemma BlankFieldZeroesLine(fields: seq<real>, i: int)
    requires 0 <= i < |fields| && fields[i] == 0.0
    ensures Subtotal(fields) == 0.0
  {
    ZeroFieldZeroesProduct(fields, i);
  }

  /** Fields that are not negative (the inputs refuse '-') give a product that is
      not negative. */
  lemma {:induction false} ProductNonNegative(fields: seq<real>)
    requires forall i :: 0 <= i < |fields| ==> fields[i] >= 0.0
    ensures Product(fields) >= 0.0
  {
    if fields != [] {
      var n := |fields| - 1;
      ProductNonNegative(fields[..n]);
      var p := Product(fields[..n]);
      assert p * fields[n] >= 0.0;
    }
  }

  /** A sum of amounts that are not negative is not negative. */
  lemma {:induction false} SumNonNegative(xs: seq<real>)
    requires forall i :: 0 <= i < |xs| ==> xs[i] >= 0.0
    ensures Sum(xs) >= 0.0
  {
    if xs != [] {
      SumNonNegative(xs[..|xs| - 1]);
    }
  }

  /** The subtotal reduce of one item (lines 281-282). */
  method ItemSubtotal(fields: seq<real>) returns (product: real)
    ensures product == Subtotal(fields)
  {
    product := if |fields| > 0 then 1.0 else 0.0;
    var i := 0;
    while i < |fields|
      invariant 0 <= i <= |fields|
      invariant fields != [] ==> product == Product(fields[..i])
      invariant fields == [] ==> product == 0.0
    {
      assert fields[..i + 1][..i] == fields[..i];
      product := product * fields[i];
      i := i + 1;
    }
    assert fields[..i] == fields;
  }

  /** updateLineItemListTotal's two passes (lines 279-288): every item's subtotal,
      then their sum. */
  method ListTotal(items: seq<seq<real>>) returns (subtotals: seq<real>, total: real)
    ensures subtotals == Subtotals(items)
    ensures total == Sum(subtotals)
  {
    subtotals := [];
    var i := 0;
    while i < |items|
      invariant 0 <= i <= |items|
      invariant |subtotals| == i
      invariant forall j :: 0 <= j < i ==> subtotals[j] == Subtotal(items[j])
    {
      var s := ItemSubtotal(items[i]);
      subtotals := subtotals + [s];
      i := i + 1;
    }
    assert subtotals == Subtotals(items);
    total := 0.0;
    i := 0;
    while i < |subtotals|
      invariant 0 <= i <= |subtotals|
      invariant total == Sum(subtotals[..i])
    {
      assert subtotals[..i + 1][..i] == subtotals[..i];
      total := total + subtotals[i];
      i := i + 1;
    }
    assert subtotals[..i] == subtotals;
  }

  /** Every item's subtotal, in list order. */
  function Subtotals(items: seq<seq<real>>): (r: seq<real>)
    ensures |r| == |items| && forall i :: 0 <= i < |items| ==> r[i] == Subtotal(items[i])
  {
    seq(|items|, i requires 0 <= i < |items| => Subtotal(items[i]))
  }

  /** A list whose fields are never negative has a total that is not negative. */
  lemma ListTotalNonNegative(items: seq<seq<real>>)
    requires forall i, j :: 0 <= i < |items| && 0 <= j < |items[i]| ==> items[i][j] >= 0.0
    ensures Sum(Subtotals(items)) >= 0.0
  {
    var subtotals := Subtotals(items);
    forall i | 0 <= i < |items|
      ensures subtotals[i] >= 0.0
    {
      if items[i] != [] {
        ProductNonNegative(items[i]);
      }
    }
    SumNonNegative(subtotals);
  }

  /** The hours total in whole cents: each entry rounded with round2 first. */
  function HoursCents(hours: seq<real>): int {
    if hours == [] then 0 else HoursCents(hours[..|hours| - 1]) + Round2Cents(hours[|hours| - 1])
  }

  /** getTotalLaborHours's reduce (lines 307-311): the sum of the hours, each
      rounded to cents first (a blank entry already read as 0). */
  method TotalLaborHours(hours: seq<real>) returns (total: real)
    ensures total == FromCents(HoursCents(hours))
  {
    total := 0.0;
    var i := 0;
    while i < |hours|
      invariant 0 <= i <= |hours|
      invariant total == FromCents(HoursCents(hours[..i]))
    {
      assert hours[..i + 1][..i] == hours[..i];
      FromCentsAdd(HoursCents(hours[..i]), Round2Cents(hours[i]));
      total := total + Round2(hours[i]);
      i := i + 1;
    }
    assert hours[..i] == hours;
  }

  /** Rounding each entry moves the total by at most half a cent per entry. */
  lemma {:induction false} HoursNearExactSum(hours: seq<real>)
    ensures Sum(hours) - 0.005 * |hours| as real < FromCents(HoursCents(hours)) || hours == []
    ensures FromCents(HoursCents(hours)) <= Sum(hours) + 0.005 * |hours| as real
  {
    if hours != [] {
      var n := |hours| - 1;
      HoursNearExactSum(hours[..n]);
      FromCentsAdd(HoursCents(hours[..n]), Round2Cents(hours[n]));
    }
  }
}

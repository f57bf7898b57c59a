/** The line-item editor in plain arithmetic. */
module LineAmounts {
  import opened Common
  import opened LineItems

  /** What a line with these fields comes to, tax included. */
  function Price(quantity: real, unitPrice: real, taxRate: real): real {
    quantity * unitPrice * (100.0 + taxRate) / 100.0
  }

  lemma WorthIsPrice(item: LineItem)
    ensures Worth(item) == Price(item.quantity, item.unitPrice, if item.taxRate.Some? then item.taxRate.value else 0.0)
  {
    var base, rate := item.quantity * item.unitPrice, if item.taxRate.Some? then item.taxRate.value else 0.0;
    assert base * (100.0 + rate) == base * 100.0 + base * rate;
  }

  lemma RoundedIs(x: real) returns (cents: int)
    ensures 0.0 <= x < 1000000000000000000000.0 ==>
      ToCents(x) == cents as real / 100.0 && cents as real - 0.5 <= 100.0 * x < cents as real + 0.5
    ensures -1000000000000000000000.0 < x < 0.0 ==>
      ToCents(x) == cents as real / 100.0 && cents as real - 0.5 < 100.0 * x <= cents as real + 0.5
    ensures x >= 1000000000000000000000.0 || x <= -1000000000000000000000.0 ==> ToCents(x) == x
  {
    cents := 0;
    if 0.0 <= x < LARGE {
      cents := CentsOfPositive(x);
    } else if -LARGE < x < 0.0 {
      var n := CentsOfPositive(-x);
      cents := -n;
    }
  }

  /** The stored amount is the whole number of cents nearest to quantity * unit price * (100 + tax rate) / 100, a half
      going away from zero, as long as that is below 10^21; from there on it is that number. */
  lemma AmountIs(item: LineItem) returns (cents: int)
    ensures var x := Price(item.quantity, item.unitPrice, if item.taxRate.Some? then item.taxRate.value else 0.0);
      && (0.0 <= x < 1000000000000000000000.0 ==>
            ComputeAmount(item) == cents as real / 100.0 && cents as real - 0.5 <= 100.0 * x < cents as real + 0.5)
      && (-1000000000000000000000.0 < x < 0.0 ==>
            ComputeAmount(item) == cents as real / 100.0 && cents as real - 0.5 < 100.0 * x <= cents as real + 0.5)
      && (x >= 1000000000000000000000.0 || x <= -1000000000000000000000.0 ==> ComputeAmount(item) == x)
  {
    WorthIsPrice(item);
    hide Worth, ToCents, Price;
    cents := RoundedIs(Worth(item));
  }

  /** The footer: each line adds its price to the total, and its tax to the tax. */
  lemma TotalsAre(value: seq<LineItem>, item: LineItem)
    ensures var base, rate := item.quantity * item.unitPrice, if item.taxRate.Some? then item.taxRate.value else 0.0;
      && Subtotal(value + [item]) == Subtotal(value) + base
      && TaxTotal(value + [item]) == TaxTotal(value) + base * rate / 100.0
      && Total(value + [item]) == Total(value) + base * (100.0 + rate) / 100.0
    ensures Subtotal([]) == 0.0 && TaxTotal([]) == 0.0 && Total([]) == 0.0
  {
    assert (value + [item])[..|value|] == value;
    WorthIsPrice(item);
  }

  /** Adding a line, and removing one. */
  lemma AddAndRemove(value: seq<LineItem>, before: seq<LineItem>, item: LineItem, after: seq<LineItem>, idx: int)
    ensures Edited(value, DoAdd) == value + [LineItem("", 1.0, 0.0, Some(18.0), 0.0)]
    ensures Edited(before + [item] + after, DoRemove(|before|)) == before + after
    ensures idx < 0 || idx >= |value| ==> Edited(value, DoRemove(idx)) == value
  {
    var all := before + [item] + after;
    assert all[..|before|] == before && all[|before| + 1..] == after;
  }

  /** An update replaces the fields that are given, and the amount by the one computed, in its line alone. */
  lemma UpdateIs(before: seq<LineItem>, item: LineItem, after: seq<LineItem>, patch: Patch)
    ensures var fields := LineItem(
        if patch.description.Some? then patch.description.value else item.description,
        if patch.quantity.Some? then patch.quantity.value else item.quantity,
        if patch.unitPrice.Some? then patch.unitPrice.value else item.unitPrice,
        if patch.taxRate.Some? then patch.taxRate.value else item.taxRate,
        if patch.amount.Some? then patch.amount.value else item.amount);
      Edited(before + [item] + after, DoUpdate(|before|, patch)) == before + [fields.(amount := ComputeAmount(fields))] + after
  {
    hide ComputeAmount;
    var out := Edited(before + [item] + after, DoUpdate(|before|, patch));
    assert out == before + [Updated(item, patch)] + after;
  }

  lemma UpdateOutside(value: seq<LineItem>, idx: int, patch: Patch)
    requires idx < 0 || idx >= |value|
    ensures Edited(value, DoUpdate(idx, patch)) == value
  {
    hide Updated;
    assert Update(value, idx, patch) == value;
  }

  /** An amount that is stored already does not matter. */
  lemma AmountOfAmount(item: LineItem, amount: real)
    ensures ComputeAmount(item.(amount := amount)) == ComputeAmount(item)
  {
    WorthIgnoresAmount(item, amount);
    hide Worth;
  }
}

/** The line-item editor: each line stores its amount rounded to cents, the footer shows unrounded sums.
    Numbers are exact reals. */
module LineItems {
  import opened Common

  datatype LineItem = LineItem(description: string, quantity: real, unitPrice: real, taxRate: Option<real>, amount: real)

  /** Some fields of a line, as the inputs send them. */
  datatype Patch = Patch(
    description: Option<string>,
    quantity: Option<real>,
    unitPrice: Option<real>,
    taxRate: Option<Option<real>>,
    amount: Option<real>)

  const DEFAULT_LINE_ITEM := LineItem("", 1.0, 0.0, Some(18.0), 0.0)

  /** From here on `toFixed` no longer rounds. */
  const LARGE := 1000000000000000000000.0

  function Cents(n: int): real { n as real / 100.0 }

  function PositiveToCents(x: real): real {
    if x >= LARGE then x else Cents((100.0 * x + 0.5).Floor)
  }

  /** `parseFloat(x.toFixed(2))` (section 21.1.3.3 of ECMA-262) for an exact x. */
  function ToCents(x: real): real {
    if x < 0.0 then -PositiveToCents(-x) else PositiveToCents(x)
  }

  function Base(item: LineItem): real { item.quantity * item.unitPrice }

  function TaxRate(item: LineItem): real { if item.taxRate.Some? then item.taxRate.value else 0.0 }

  function Tax(item: LineItem): real { Base(item) * TaxRate(item) / 100.0 }

  function Worth(item: LineItem): real { Base(item) + Tax(item) }

  function ComputeAmount(item: LineItem): real {
    ToCents(Worth(item))
  }

  function Apply<T>(field: T, patch: Option<T>): T { if patch.Some? then patch.value else field }

  function Patched(item: LineItem, patch: Patch): LineItem {
    LineItem(Apply(item.description, patch.description), Apply(item.quantity, patch.quantity),
             Apply(item.unitPrice, patch.unitPrice), Apply(item.taxRate, patch.taxRate), Apply(item.amount, patch.amount))
  }

  /** The amount a patch may bring is computed anew. */
  function Updated(item: LineItem, patch: Patch): LineItem {
    Patched(item, patch).(amount := ComputeAmount(Patched(item, patch)))
  }

  /** An index outside the list changes nothing. */
  function Update(value: seq<LineItem>, idx: int, patch: Patch): (r: seq<LineItem>)
    ensures |r| == |value|
  {
    seq(|value|, i requires 0 <= i < |value| => if i != idx then value[i] else Updated(value[i], patch))
  }

  function Add(value: seq<LineItem>): seq<LineItem> {
    value + [DEFAULT_LINE_ITEM]
  }

  function Remove(value: seq<LineItem>, idx: int): seq<LineItem> {
    if 0 <= idx < |value| then value[..idx] + value[idx + 1..] else value
  }

  function Subtotal(value: seq<LineItem>): real {
    if value == [] then 0.0 else Subtotal(value[..|value| - 1]) + Base(value[|value| - 1])
  }

  function TaxTotal(value: seq<LineItem>): real {
    if value == [] then 0.0 else TaxTotal(value[..|value| - 1]) + Tax(value[|value| - 1])
  }

  function Total(value: seq<LineItem>): real { Subtotal(value) + TaxTotal(value) }

  function SumOfAmounts(value: seq<LineItem>): real {
    if value == [] then 0.0 else SumOfAmounts(value[..|value| - 1]) + value[|value| - 1].amount
  }

  // ----- Rounding -----

  function Abs(x: real): real { if x < 0.0 then -x else x }

  /** c is no nearer to x than r, and when as near not further from zero. */
  predicate NoBetter(x: real, r: real, c: real) {
    Abs(r - x) < Abs(c - x) || (Abs(r - x) == Abs(c - x) && Abs(c) <= Abs(r))
  }

  /** A whole number of cents, none nearer to x, and of two as near the one away from zero. */
  ghost predicate IsNearestCents(x: real, r: real) {
    (exists n: int :: r == Cents(n)) && forall n: int :: NoBetter(x, r, Cents(n))
  }

  lemma CentsOfPositive(x: real) returns (n: int)
    requires 0.0 <= x < LARGE
    ensures n >= 0 && ToCents(x) == Cents(n) && n as real - 0.5 <= 100.0 * x < n as real + 0.5
  {
    n := (100.0 * x + 0.5).Floor;
    assert n as real <= 100.0 * x + 0.5 < n as real + 1.0;
  }

  lemma NoCentIsNearer(x: real, n: int, m: int)
    requires 0.0 <= x && n >= 0 && n as real - 0.5 <= 100.0 * x < n as real + 0.5
    ensures NoBetter(x, Cents(n), Cents(m))
  {
    if m > n {
      assert m as real >= n as real + 1.0;
    } else if m < n {
      assert m as real <= n as real - 1.0;
    }
  }

  /** Below the large numbers rounding gives the nearest cents, with ties away from zero. */
  lemma RoundsToNearest(x: real)
    requires Abs(x) < LARGE
    ensures IsNearestCents(x, ToCents(x))
  {
    var n := CentsOfPositive(Abs(x));
    var r := ToCents(x);
    assert r == Cents(if x < 0.0 then -n else n);
    forall m: int
      ensures NoBetter(x, r, Cents(m))
    {
      NoCentIsNearer(Abs(x), n, if x < 0.0 then -m else m);
    }
  }

  /** Only one number is nearest, so that describes the rounding exactly. */
  lemma NearestIsUnique(x: real, r: real, q: real)
    requires IsNearestCents(x, r) && IsNearestCents(x, q)
    ensures r == q
  {
    var n: int :| r == Cents(n);
    var m: int :| q == Cents(m);
    assert NoBetter(x, r, Cents(m)) && NoBetter(x, q, Cents(n)) && NoBetter(x, r, Cents(0));
  }

  /** Rounding moves a number by at most half a cent. */
  lemma HalfACent(x: real)
    ensures Abs(ToCents(x) - x) <= 0.005
  {
    if Abs(x) < LARGE {
      var n := CentsOfPositive(Abs(x));
    }
  }

  // ----- Editing -----

  datatype Edit = DoUpdate(idx: int, patch: Patch) | DoAdd | DoRemove(idx: int)

  function Edited(value: seq<LineItem>, edit: Edit): seq<LineItem> {
    match edit
    case DoUpdate(idx, patch) => Update(value, idx, patch)
    case DoAdd => Add(value)
    case DoRemove(idx) => Remove(value, idx)
  }

  function EditAll(value: seq<LineItem>, edits: seq<Edit>): seq<LineItem> {
    if edits == [] then value else Edited(EditAll(value, edits[..|edits| - 1]), edits[|edits| - 1])
  }

  /** Every stored amount is the amount of its line. */
  ghost predicate Consistent(value: seq<LineItem>) {
    forall i :: 0 <= i < |value| ==> value[i].amount == ComputeAmount(value[i])
  }

  lemma WorthIgnoresAmount(item: LineItem, amount: real)
    ensures Worth(item.(amount := amount)) == Worth(item)
  {
    var other := item.(amount := amount);
    assert Base(other) == Base(item) && TaxRate(other) == TaxRate(item);
    assert Tax(other) == Tax(item) by { hide Base; }
  }

  lemma UpdateKeeps(value: seq<LineItem>, idx: int, patch: Patch)
    requires Consistent(value)
    ensures Consistent(Update(value, idx, patch))
  {
    if 0 <= idx < |value| {
      var patched := Patched(value[idx], patch);
      WorthIgnoresAmount(patched, ComputeAmount(patched));
    }
    hide Worth, ToCents, Patched;
  }

  lemma ZeroCents()
    ensures ToCents(0.0) == 0.0
  {
    assert 100.0 * 0.0 + 0.5 == 0.5 && (0.5).Floor == 0;
    assert Cents(0) == 0.0;
  }

  lemma FreeIsWorthNothing(item: LineItem)
    requires item.unitPrice == 0.0
    ensures Worth(item) == 0.0
  {
    assert Base(item) == 0.0;
    hide Base, TaxRate;
    assert Tax(item) == 0.0;
  }

  lemma NewLineIsWorthNothing()
    ensures Worth(DEFAULT_LINE_ITEM) == 0.0
  {
    hide Worth;
    FreeIsWorthNothing(DEFAULT_LINE_ITEM);
  }

  lemma AddKeeps(value: seq<LineItem>)
    requires Consistent(value)
    ensures Consistent(Add(value))
  {
    NewLineIsWorthNothing();
    ZeroCents();
    hide Worth, ToCents;
    assert ComputeAmount(DEFAULT_LINE_ITEM) == 0.0;
    hide ComputeAmount;
  }

  lemma EditKeeps(value: seq<LineItem>, edit: Edit)
    requires Consistent(value)
    ensures Consistent(Edited(value, edit))
  {
    hide Update, Add, ComputeAmount;
    match edit
    case DoUpdate(idx, patch) => UpdateKeeps(value, idx, patch);
    case DoAdd => AddKeeps(value);
    case DoRemove(idx) =>
  }

  /** After any edits of a consistent list every stored amount is the rounded worth of its line. */
  lemma {:induction false} EditsKeep(value: seq<LineItem>, edits: seq<Edit>)
    requires Consistent(value)
    ensures Consistent(EditAll(value, edits))
  {
    if edits != [] {
      EditsKeep(value, edits[..|edits| - 1]);
      EditKeeps(EditAll(value, edits[..|edits| - 1]), edits[|edits| - 1]);
      hide Consistent, Edited;
    }
  }

  /** The stored amounts add up to the displayed total but for half a cent a line. */
  lemma {:induction false} AmountsNearTotal(value: seq<LineItem>)
    requires Consistent(value)
    ensures Abs(SumOfAmounts(value) - Total(value)) <= 0.005 * |value| as real
  {
    if value != [] {
      var rest, last := value[..|value| - 1], value[|value| - 1];
      AmountsNearTotal(rest);
      assert last.amount == ComputeAmount(last);
      HalfACent(Worth(last));
      hide ToCents, Base, Tax;
      assert |value| as real == |rest| as real + 1.0;
    }
  }

  lemma EditsNearTotal(value: seq<LineItem>, edits: seq<Edit>)
    requires Consistent(value)
    ensures var edited := EditAll(value, edits); Abs(SumOfAmounts(edited) - Total(edited)) <= 0.005 * |edited| as real
  {
    EditsKeep(value, edits);
    AmountsNearTotal(EditAll(value, edits));
  }

  function Halves(n: nat): (r: seq<LineItem>)
    ensures |r| == n
  {
    seq(n, i => LineItem("", 1.0, 0.005, None, 0.01))
  }

  /** No smaller bound holds, whatever the number of lines. */
  lemma {:induction false} BoundIsReached(n: nat)
    ensures Consistent(Halves(n)) && SumOfAmounts(Halves(n)) - Total(Halves(n)) == 0.005 * n as real
  {
    var item := LineItem("", 1.0, 0.005, None, 0.01);
    assert Base(item) == 0.005 && Tax(item) == 0.0;
    assert (100.0 * 0.005 + 0.5).Floor == 1;
    assert ToCents(0.005) == 0.01;
    if n > 0 {
      BoundIsReached(n - 1);
      assert Halves(n)[..n - 1] == Halves(n - 1) && Halves(n)[n - 1] == item;
    }
  }

  // ----- What an edit does to the total -----

  lemma {:induction false} TotalOfConcat(a: seq<LineItem>, b: seq<LineItem>)
    ensures Total(a + b) == Total(a) + Total(b)
    decreases |b|
  {
    hide Base, Tax;
    if b == [] {
      assert a + b == a;
    } else {
      TotalOfConcat(a, b[..|b| - 1]);
      assert (a + b)[..|a + b| - 1] == a + b[..|b| - 1];
    }
  }

  lemma TotalOfOne(item: LineItem)
    ensures Total([item]) == Worth(item)
  {
    assert [item][..0] == [];
    assert Subtotal([item][..0]) == 0.0 && TaxTotal([item][..0]) == 0.0;
    hide Base, Tax;
  }

  /** An update moves the total by what the line gains, a removal by what it was worth, and a new line
      is worth nothing. */
  lemma TotalAfter(value: seq<LineItem>, edit: Edit)
    ensures Total(Edited(value, edit)) == Total(value) +
      match edit
      case DoUpdate(idx, patch) => if 0 <= idx < |value| then Worth(Patched(value[idx], patch)) - Worth(value[idx]) else 0.0
      case DoAdd => 0.0
      case DoRemove(idx) => if 0 <= idx < |value| then -Worth(value[idx]) else 0.0
  {
    hide Total, Worth, Patched;
    match edit
    case DoUpdate(idx, patch) =>
      if 0 <= idx < |value| {
        TotalAfterUpdate(value, idx, patch);
        hide Update;
      } else {
        assert Update(value, idx, patch) == value;
      }
    case DoAdd =>
      TotalOfConcat(value, [DEFAULT_LINE_ITEM]);
      TotalOfOne(DEFAULT_LINE_ITEM);
      NewLineIsWorthNothing();
      hide ComputeAmount;
    case DoRemove(idx) =>
      if 0 <= idx < |value| {
        TotalAround(value, idx);
        TotalOfConcat(value[..idx], value[idx + 1..]);
      }
  }

  lemma TotalAfterUpdate(value: seq<LineItem>, idx: int, patch: Patch)
    requires 0 <= idx < |value|
    ensures Total(Update(value, idx, patch)) == Total(value) + Worth(Patched(value[idx], patch)) - Worth(value[idx])
  {
    var patched := Patched(value[idx], patch);
    var next := Update(value, idx, patch);
    WorthIgnoresAmount(patched, ComputeAmount(patched));
    hide Worth, ComputeAmount, Total, Patched;
    TotalAround(value, idx);
    TotalAround(next, idx);
    assert next[..idx] == value[..idx] && next[idx + 1..] == value[idx + 1..];
  }

  lemma TotalAround(value: seq<LineItem>, idx: int)
    requires 0 <= idx < |value|
    ensures Total(value) == Total(value[..idx]) + Worth(value[idx]) + Total(value[idx + 1..])
  {
    assert value == value[..idx] + [value[idx]] + value[idx + 1..];
    TotalOfConcat(value[..idx] + [value[idx]], value[idx + 1..]);
    TotalOfConcat(value[..idx], [value[idx]]);
    TotalOfOne(value[idx]);
    hide Total, Worth;
  }
}

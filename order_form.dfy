/**
 * The order form's line-item editor and total calculator
 * (OrderFormComponent in src/app/orders/order-form/order-form.component.ts).
 *
 * The form holds an ordered list of line items, each with a product name, a
 * quantity, a unit price and a derived line total, plus the VAT and discount
 * percentages and the derived grand total. Numbers are exact reals.
 */
module OrderForm {
  import opened Js
  import opened OrderModel

  /** One row of the `items` form array: the values of its four controls.
      The quantity and price inputs can be cleared by the user, so they may be absent. */
  datatype Line = Line(product: string, qty: Option<real>, price: Option<real>, total: real)

  // ---------------------------------------------------------------------------
  // Specification functions

  /** The line total calculateTotal writes: quantity times price, a falsy one counting as 0. */
  function LineTotal(l: Line): real
  {
    Or(l.qty, 0.0) * Or(l.price, 0.0)
  }

  /** The sum of the line totals computed from quantities and prices, in list order. */
  function Subtotal(ls: seq<Line>): real
  {
    if ls == [] then 0.0 else Subtotal(ls[..|ls| - 1]) + LineTotal(ls[|ls| - 1])
  }

  /** The sum of the totals the lines currently hold. */
  function SumOfTotals(ls: seq<Line>): real
  {
    if ls == [] then 0.0 else SumOfTotals(ls[..|ls| - 1]) + ls[|ls| - 1].total
  }

  /** Two lists agree on everything but the derived line totals. */
  predicate SameInputs(a: seq<Line>, b: seq<Line>)
  {
    |a| == |b| &&
    forall i :: 0 <= i < |a| ==>
      a[i].product == b[i].product && a[i].qty == b[i].qty && a[i].price == b[i].price
  }

  /** Every line holds the total its quantity and price give. */
  predicate TotalsConsistent(ls: seq<Line>)
  {
    forall i :: 0 <= i < |ls| ==> ls[i].total == LineTotal(ls[i])
  }

  /** The list with every line total recomputed. */
  function Recomputed(ls: seq<Line>): (r: seq<Line>)
    ensures SameInputs(r, ls)
    ensures TotalsConsistent(r)
  {
    seq(|ls|, i requires 0 <= i < |ls| => ls[i].(total := LineTotal(ls[i])))
  }

  /** The grand total: VAT and discount are both percentages of the same subtotal,
      not compounded; a falsy percentage counts as 0. */
  function GrandTotal(subtotal: real, vat: Option<real>, discount: Option<real>): real
  {
    var v := Or(vat, 0.0);
    var d := Or(discount, 0.0);
    subtotal + subtotal * (v / 100.0) - subtotal * (d / 100.0)
  }

  /** The stored item `addItem(item?)` reads fields from; `item?.f` is undefined when there is no item. */
  function Given(item: Option<StoredItem>): StoredItem
  {
    if item.Some? then item.value else NoItem
  }

  /** The line addItem appends: each control takes the item's field, or its default when that is falsy. */
  function Defaulted(item: Option<StoredItem>): (l: Line)
    ensures Truthy(l.qty) && l.price.Some?
    ensures Truthy(Given(item).qty) ==> l.qty == Given(item).qty
    ensures !Truthy(Given(item).qty) ==> l.qty == Some(1.0)
    ensures l.price.value == Or(Given(item).price, 0.0)
    ensures l.product == OrStr(Given(item).product, "")
    ensures l.total == Or(Given(item).total, 0.0)
  {
    var it := Given(item);
    Line(OrStr(it.product, ""), Some(Or(it.qty, 1.0)), Some(Or(it.price, 0.0)), Or(it.total, 0.0))
  }

  /** The lines addItem appends, one per stored item, in stored order. */
  function DefaultedAll(stored: seq<StoredItem>): (r: seq<Line>)
    ensures |r| == |stored|
    ensures forall i :: 0 <= i < |stored| ==> r[i] == Defaulted(Some(stored[i]))
  {
    seq(|stored|, i requires 0 <= i < |stored| => Defaulted(Some(stored[i])))
  }

  /** The line total a stored item gets once loaded and recalculated: its quantity, 1 when
      falsy, times its price, 0 when falsy. The stored total plays no part. */
  function ReloadedTotal(it: StoredItem): real
  {
    Or(it.qty, 1.0) * Or(it.price, 0.0)
  }

  /** A line as the form's raw value reports it: every control holds a value. */
  function Raw(l: Line): StoredItem
  {
    StoredItem(Some(l.product), l.qty, l.price, Some(l.total))
  }

  /** Where `splice(index, 1)` starts: a negative index counts from the end, and the
      start is clamped to the list, so it is at most the length. */
  function SpliceStart(index: int, len: nat): (k: nat)
    ensures k <= len
    ensures 0 <= index <= len ==> k == index
    ensures index < 0 && 0 <= len + index ==> k == len + index
    ensures index > len ==> k == len
    ensures len + index < 0 ==> k == 0
  {
    if index < 0 then (if len + index < 0 then 0 else len + index)
    else if index > len then len
    else index
  }

  /** The list after FormArray.removeAt(index), that is `splice(index, 1)`. */
  function RemoveAt<T>(s: seq<T>, index: int): (r: seq<T>)
    ensures 0 <= index < |s| ==>
      |r| == |s| - 1 &&
      (forall j :: 0 <= j < index ==> r[j] == s[j]) &&
      (forall j :: index <= j < |r| ==> r[j] == s[j + 1])
    ensures 0 <= index < |s| ==> multiset(r) + multiset{s[index]} == multiset(s)
    ensures index >= |s| ==> r == s
  {
    var k := SpliceStart(index, |s|);
    if k < |s| then
      assert s == s[..k] + [s[k]] + s[k + 1..];
      s[..k] + s[k + 1..]
    else s
  }

  // ---------------------------------------------------------------------------
  // The form

  class Form {
    var items: seq<Line>
    var vat: Option<real>
    var discount: Option<real>
    var total: real

    /** The derived fields agree with the inputs: every line total is quantity times
        price, and the grand total is computed from the sum of the line totals. */
    predicate Consistent()
      reads this
    {
      TotalsConsistent(items) && total == GrandTotal(SumOfTotals(items), vat, discount)
    }

    /** ngOnInit: the form starts with no items, VAT and discount 0 and total 0. A new
        order (falsy route id) gets one default item; an existing one waits for LoadOrder. */
    constructor (orderId: int)
      ensures vat == Some(0.0) && discount == Some(0.0) && total == 0.0
      ensures items == if orderId == 0 then [Defaulted(None)] else []
      ensures Consistent()
    {
      items := [];
      vat := Some(0.0);
      discount := Some(0.0);
      total := 0.0;
      new;
      if orderId == 0 {
        AddItem(None);
      }
    }

    /** addItem: appends one line with defaults filled in; nothing is recomputed. */
    method AddItem(item: Option<StoredItem>)
      modifies this
      ensures items == old(items) + [Defaulted(item)]
      ensures vat == old(vat) && discount == old(discount) && total == old(total)
    {
      items := items + [Defaulted(item)];
    }

    /** removeItem: removes the line at `index`, then recalculates. */
    method RemoveItem(index: int)
      modifies this
      ensures items == Recomputed(RemoveAt(old(items), index))
      ensures vat == old(vat) && discount == old(discount)
      ensures total == GrandTotal(Subtotal(RemoveAt(old(items), index)), vat, discount)
      ensures Consistent()
    {
      items := RemoveAt(items, index);
      CalculateTotal();
    }

    /** calculateTotal: overwrites every line total with quantity times price, adds them
        up in order and writes the grand total. Running it on a consistent form changes nothing. */
    method CalculateTotal()
      modifies this
      ensures items == Recomputed(old(items))
      ensures vat == old(vat) && discount == old(discount)
      ensures total == GrandTotal(Subtotal(old(items)), vat, discount)
      ensures Consistent()
      ensures old(Consistent()) ==> items == old(items) && total == old(total)
    {
      var subtotal := 0.0;
      var i := 0;
      while i < |items|
        invariant 0 <= i <= |items| == |old(items)|
        invariant forall k :: 0 <= k < i ==> items[k] == old(items)[k].(total := LineTotal(old(items)[k]))
        invariant forall k :: i <= k < |items| ==> items[k] == old(items)[k]
        invariant subtotal == Subtotal(old(items)[..i])
        invariant vat == old(vat) && discount == old(discount)
      {
        var qty := Or(items[i].qty, 0.0);
        var price := Or(items[i].price, 0.0);
        var lineTotal := qty * price;
        items := items[i := items[i].(total := lineTotal)];
        subtotal := subtotal + lineTotal;
        assert old(items)[..i + 1][..i] == old(items)[..i];
        i := i + 1;
      }
      assert old(items)[..i] == old(items);
      RecalculatedLines(old(items), items);
      total := GrandTotal(subtotal, vat, discount);
      if old(Consistent()) {
        ConsistentIsFixpoint(old(items));
        SumOfTotalsIsSubtotal(old(items));
      }
    }

    /** The edit branch of ngOnInit, once the stored order arrives: VAT and discount are
        patched in, every stored item is appended in stored order, then totals are recalculated.
        A stored order without an items array makes `forEach` throw after the patch:
        `completed` is false, and the lines and the grand total stay as they were. */
    method LoadOrder(order: StoredOrder) returns (completed: bool)
      modifies this
      ensures vat == Some(Or(order.vat, 0.0)) && discount == Some(Or(order.discount, 0.0))
      ensures completed <==> order.items.Some?
      ensures !completed ==> items == old(items) && total == old(total)
      ensures completed ==> items == Recomputed(old(items) + DefaultedAll(order.items.value))
      ensures completed ==> Consistent()
    {
      vat := Some(Or(order.vat, 0.0));
      discount := Some(Or(order.discount, 0.0));
      if order.items.None? {
        return false;
      }
      var stored := order.items.value;
      var k := 0;
      while k < |stored|
        invariant 0 <= k <= |stored|
        invariant items == old(items) + DefaultedAll(stored[..k])
        invariant vat == Some(Or(order.vat, 0.0)) && discount == Some(Or(order.discount, 0.0))
      {
        AddItem(Some(stored[k]));
        DefaultedAllSnoc(stored, k);
        k := k + 1;
      }
      assert stored[..k] == stored;
      ghost var before := old(items);
      CalculateTotal();
      assert items == Recomputed(before + DefaultedAll(stored));
      completed := true;
    }
  }

  // ---------------------------------------------------------------------------
  // Lemmas

  /** The line totals depend only on quantities and prices, so the subtotal does too. */
  lemma {:induction false} SubtotalOfSameInputs(a: seq<Line>, b: seq<Line>)
    requires SameInputs(a, b)
    ensures Subtotal(a) == Subtotal(b)
  {
    if a != [] {
      SubtotalOfSameInputs(a[..|a| - 1], b[..|b| - 1]);
    }
  }

  /** When every line holds its own total, adding up the held totals gives the subtotal. */
  lemma {:induction false} SumOfTotalsIsSubtotal(ls: seq<Line>)
    requires TotalsConsistent(ls)
    ensures SumOfTotals(ls) == Subtotal(ls)
  {
    if ls != [] {
      SumOfTotalsIsSubtotal(ls[..|ls| - 1]);
    }
  }

  /** The lines calculateTotal leaves behind are the recomputed list, and the totals they
      hold add up to the subtotal of the lines it started from. */
  lemma RecalculatedLines(before: seq<Line>, after: seq<Line>)
    requires |after| == |before|
    requires forall k :: 0 <= k < |before| ==> after[k] == before[k].(total := LineTotal(before[k]))
    ensures after == Recomputed(before)
    ensures SumOfTotals(after) == Subtotal(before)
  {
    assert after == Recomputed(before);
    SumOfTotalsIsSubtotal(after);
    SubtotalOfSameInputs(after, before);
  }

  /** Recomputed is characterised by its contract: the only list with the same inputs
      and consistent totals. */
  lemma RecomputedUnique(ls: seq<Line>, r: seq<Line>)
    requires SameInputs(r, ls) && TotalsConsistent(r)
    ensures r == Recomputed(ls)
  {
    var c := Recomputed(ls);
    forall i | 0 <= i < |r|
      ensures r[i] == c[i]
    {
      assert r[i].total == LineTotal(ls[i]);
    }
  }

  /** Recalculating leaves a list alone exactly when its totals are already consistent. */
  lemma ConsistentIsFixpoint(ls: seq<Line>)
    ensures TotalsConsistent(ls) <==> Recomputed(ls) == ls
  {
    if TotalsConsistent(ls) {
      RecomputedUnique(ls, ls);
    }
  }

  /** calculateTotal is idempotent: a second run writes the same line totals and the same grand total. */
  lemma CalculateTwiceIsOnce(ls: seq<Line>, vat: Option<real>, discount: Option<real>)
    ensures Recomputed(Recomputed(ls)) == Recomputed(ls)
    ensures GrandTotal(Subtotal(Recomputed(ls)), vat, discount) == GrandTotal(Subtotal(ls), vat, discount)
  {
    ConsistentIsFixpoint(Recomputed(ls));
    SubtotalOfSameInputs(Recomputed(ls), ls);
  }

  /** A loaded line's total is its stored quantity (1 when falsy) times its stored price,
      whatever total was stored with it. */
  lemma LoadedLineTotal(it: StoredItem)
    ensures LineTotal(Defaulted(Some(it))) == ReloadedTotal(it)
  {
  }

  /** Converting one more stored item appends one more line. */
  lemma DefaultedAllSnoc(stored: seq<StoredItem>, k: nat)
    requires k < |stored|
    ensures DefaultedAll(stored[..k + 1]) == DefaultedAll(stored[..k]) + [Defaulted(Some(stored[k]))]
  {
    assert DefaultedAll(stored[..k + 1])[k] == Defaulted(Some(stored[k]));
  }

  /** After loading, each appended line's total is its stored quantity (1 when falsy) times its stored price. */
  lemma LoadedTotals(before: seq<Line>, stored: seq<StoredItem>)
    ensures var r := Recomputed(before + DefaultedAll(stored));
      forall i :: |before| <= i < |r| ==> r[i].total == ReloadedTotal(stored[i - |before|])
  {
    var ls := before + DefaultedAll(stored);
    forall i | |before| <= i < |ls|
      ensures Recomputed(ls)[i].total == ReloadedTotal(stored[i - |before|])
    {
      assert ls[i] == Defaulted(Some(stored[i - |before|]));
      LoadedLineTotal(stored[i - |before|]);
    }
  }

  /** Stored orders that differ only in their saved line totals load to the same lines. */
  lemma LoadIgnoresStoredTotals(before: seq<Line>, a: seq<StoredItem>, b: seq<StoredItem>)
    requires |a| == |b|
    requires forall i :: 0 <= i < |a| ==>
      a[i].product == b[i].product && a[i].qty == b[i].qty && a[i].price == b[i].price
    ensures Recomputed(before + DefaultedAll(a)) == Recomputed(before + DefaultedAll(b))
  {
    var la, lb := before + DefaultedAll(a), before + DefaultedAll(b);
    assert SameInputs(Recomputed(la), lb) by {
      forall i | 0 <= i < |la|
        ensures Recomputed(la)[i].product == lb[i].product
        ensures Recomputed(la)[i].qty == lb[i].qty && Recomputed(la)[i].price == lb[i].price
      {
        if i >= |before| {
          assert la[i] == Defaulted(Some(a[i - |before|]));
          assert lb[i] == Defaulted(Some(b[i - |before|]));
        }
      }
    }
    RecomputedUnique(lb, Recomputed(la));
  }

  /** A line read back from the form loads to the same line exactly when its quantity is
      truthy and its price present: addItem replaces a falsy quantity by 1 and an absent price by 0. */
  lemma RawRoundTrip(l: Line)
    ensures Defaulted(Some(Raw(l))) == l <==> Truthy(l.qty) && l.price.Some?
  {
  }

  /** A negative index counts from the end of the list; one before the start removes the first line. */
  lemma RemoveAtFromEnd<T>(s: seq<T>, index: int)
    requires index < 0
    ensures -|s| <= index ==> RemoveAt(s, index) == RemoveAt(s, |s| + index)
    ensures index < -|s| ==> RemoveAt(s, index) == RemoveAt(s, 0)
  {
  }

  /** Replacing one line changes the subtotal by exactly the change in that line's total. */
  lemma {:induction false} SubtotalReplace(s: seq<Line>, i: nat, l: Line)
    requires i < |s|
    ensures Subtotal(s[i := l]) == Subtotal(s) - LineTotal(s[i]) + LineTotal(l)
  {
    var n := |s| - 1;
    if i < n {
      assert s[i := l][..n] == s[..n][i := l];
      SubtotalReplace(s[..n], i, l);
    } else {
      assert s[i := l][..n] == s[..n];
    }
  }

  /** Raising a quantity never lowers the line total, provided the price is not negative
      (the form does not clamp negative prices). */
  lemma RaisingQtyRaisesLineTotal(l: Line, q: real)
    requires Or(l.price, 0.0) >= 0.0
    requires q >= Or(l.qty, 0.0)
    ensures LineTotal(l.(qty := Some(q))) >= LineTotal(l)
  {
    var p := Or(l.price, 0.0);
    assert Or(Some(q), 0.0) == q;
    assert (q - Or(l.qty, 0.0)) * p >= 0.0;
  }

  /** Raising a price never lowers the line total, provided the quantity is not negative. */
  lemma RaisingPriceRaisesLineTotal(l: Line, p: real)
    requires Or(l.qty, 0.0) >= 0.0
    requires p >= Or(l.price, 0.0)
    ensures LineTotal(l.(price := Some(p))) >= LineTotal(l)
  {
    var q := Or(l.qty, 0.0);
    assert Or(Some(p), 0.0) == p;
    assert q * (p - Or(l.price, 0.0)) >= 0.0;
  }

  /** The grand total is the subtotal scaled by one factor: VAT and discount are not
      compounded. With no lines the total is 0 whatever the percentages; equal VAT and
      discount cancel out. */
  lemma GrandTotalFactored(subtotal: real, vat: Option<real>, discount: Option<real>)
    ensures GrandTotal(subtotal, vat, discount) == subtotal * (1.0 + Or(vat, 0.0) / 100.0 - Or(discount, 0.0) / 100.0)
    ensures subtotal == 0.0 ==> GrandTotal(subtotal, vat, discount) == 0.0
    ensures Or(vat, 0.0) == Or(discount, 0.0) ==> GrandTotal(subtotal, vat, discount) == subtotal
  {
  }

  /** The grand total grows with the subtotal unless the discount exceeds 100 percent plus VAT. */
  lemma GrandTotalMonotone(s1: real, s2: real, vat: Option<real>, discount: Option<real>)
    requires s1 <= s2
    requires 100.0 + Or(vat, 0.0) - Or(discount, 0.0) >= 0.0
    ensures GrandTotal(s1, vat, discount) <= GrandTotal(s2, vat, discount)
  {
    var g := 100.0 + Or(vat, 0.0) - Or(discount, 0.0);
    var d := s2 - s1;
    assert d * g >= 0.0 by {
      if d > 0.0 && g > 0.0 { assert d * g > 0.0; }
    }
    assert GrandTotal(s2, vat, discount) - GrandTotal(s1, vat, discount) == d * g / 100.0;
  }

  /** Raising one line's quantity never lowers the subtotal or the grand total, given a
      non-negative price and a discount of at most 100 percent plus VAT. */
  lemma RaisingQtyRaisesTotals(s: seq<Line>, i: nat, q: real, vat: Option<real>, discount: Option<real>)
    requires i < |s|
    requires Or(s[i].price, 0.0) >= 0.0
    requires q >= Or(s[i].qty, 0.0)
    requires 100.0 + Or(vat, 0.0) - Or(discount, 0.0) >= 0.0
    ensures Subtotal(s[i := s[i].(qty := Some(q))]) >= Subtotal(s)
    ensures GrandTotal(Subtotal(s[i := s[i].(qty := Some(q))]), vat, discount) >= GrandTotal(Subtotal(s), vat, discount)
  {
    SubtotalReplace(s, i, s[i].(qty := Some(q)));
    RaisingQtyRaisesLineTotal(s[i], q);
    GrandTotalMonotone(Subtotal(s), Subtotal(s[i := s[i].(qty := Some(q))]), vat, discount);
  }

  /** Raising one line's price never lowers the subtotal or the grand total, given a
      non-negative quantity and a discount of at most 100 percent plus VAT. */
  lemma RaisingPriceRaisesTotals(s: seq<Line>, i: nat, p: real, vat: Option<real>, discount: Option<real>)
    requires i < |s|
    requires Or(s[i].qty, 0.0) >= 0.0
    requires p >= Or(s[i].price, 0.0)
    requires 100.0 + Or(vat, 0.0) - Or(discount, 0.0) >= 0.0
    ensures Subtotal(s[i := s[i].(price := Some(p))]) >= Subtotal(s)
    ensures GrandTotal(Subtotal(s[i := s[i].(price := Some(p))]), vat, discount) >= GrandTotal(Subtotal(s), vat, discount)
  {
    SubtotalReplace(s, i, s[i].(price := Some(p)));
    RaisingPriceRaisesLineTotal(s[i], p);
    GrandTotalMonotone(Subtotal(s), Subtotal(s[i := s[i].(price := Some(p))]), vat, discount);
  }

  /** Nothing clamps a negative price: a positive quantity times a negative price gives a
      negative line total, and a larger quantity gives a smaller one. */
  lemma NegativePriceIsNotClamped(l: Line, q: real)
    requires Or(l.price, 0.0) < 0.0
    requires Or(l.qty, 0.0) > 0.0
    requires q > Or(l.qty, 0.0)
    ensures LineTotal(l) < 0.0
    ensures LineTotal(l.(qty := Some(q))) < LineTotal(l)
  {
  }
}

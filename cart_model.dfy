/** The cart schema of models/Cart.js: line and cart validators, the zero defaults, and the
    `pre('save')` hook that recomputes the derived totals. The pricing rule defined here is
    also the one orders use. */
module CartModel {
  import opened Results

  /** One priced line: a cart item, or an order item (the order route pushes the same four
      fields). The name and price are copied from the catalog when the line is made. */
  datatype LineItem = LineItem(menuItemId: string, name: string, price: real, quantity: int)

  /** One cart document; subtotal, tax and total are a cache of the lines. */
  datatype Cart = Cart(
    sessionId: string,
    items: seq<LineItem>,
    subtotal: real,
    tax: real,
    total: real,
    lastUpdated: int)

  /** The tax rate applied to every subtotal: 0.02, which is exactly 1/50. */
  const TaxRate: real := 0.02

  function Amount(line: LineItem): real
  {
    line.price * line.quantity as real
  }

  /** items.reduce((sum, item) => sum + item.price * item.quantity, 0), a left fold. */
  function Subtotal(items: seq<LineItem>): real
  {
    if items == [] then 0.0 else Subtotal(items[..|items| - 1]) + Amount(items[|items| - 1])
  }

  /** Lines with non-negative prices and quantities never price below zero. */
  lemma {:induction false} SubtotalNonNegative(items: seq<LineItem>)
    requires forall i :: 0 <= i < |items| ==> items[i].price >= 0.0 && items[i].quantity >= 0
    ensures Subtotal(items) >= 0.0
  {
    if items != [] {
      var last := items[|items| - 1];
      SubtotalNonNegative(items[..|items| - 1]);
      assert last.price >= 0.0 && last.quantity as real >= 0.0;
      assert Amount(last) >= 0.0;
    }
  }

  /** The relation every saved document keeps: totals agree with the lines. */
  predicate TotalsAgree(c: Cart)
  {
    && c.subtotal == Subtotal(c.items)
    && c.tax == c.subtotal * TaxRate
    && c.total == c.subtotal + c.tax
  }

  /** The totals assignments: of the save hook, and repeated verbatim in the get, add, update and remove routes. */
  function Recompute(c: Cart, now: int): (r: Cart)
    ensures TotalsAgree(r)
    ensures r.sessionId == c.sessionId && r.items == c.items && r.lastUpdated == now
  {
    var subtotal := Subtotal(c.items);
    var tax := subtotal * TaxRate;
    c.(subtotal := subtotal, tax := tax, total := subtotal + tax, lastUpdated := now)
  }

  /** cartItemSchema: menuItemId, name and price required, quantity required and at least 1. */
  predicate ValidLine(line: LineItem)
  {
    line.menuItemId != "" && line.name != "" && line.quantity >= 1
  }

  /** cartSchema: sessionId required and every line valid. */
  predicate ValidCart(c: Cart)
  {
    c.sessionId != "" && forall i :: 0 <= i < |c.items| ==> ValidLine(c.items[i])
  }

  /** `new Cart({ sessionId, items: [] })`: the schema defaults. */
  function NewCart(sessionId: string, now: int): (c: Cart)
    ensures c.sessionId == sessionId && c.items == [] && c.lastUpdated == now
    ensures TotalsAgree(c) && c.total == 0.0
    ensures ValidCart(c) <==> sessionId != ""
  {
    Cart(sessionId, [], 0.0, 0.0, 0.0, now)
  }

  /** `cart.save()`: the validators run, then the hook recomputes the totals and stamps
      lastUpdated. None is a rejected save, which leaves the stored document as it was. */
  function Save(c: Cart, now: int): (r: Option<Cart>)
    ensures r.Some? <==> ValidCart(c)
    ensures r.Some? ==> ValidCart(r.value) && TotalsAgree(r.value) && r.value.lastUpdated == now
    ensures r.Some? ==> r.value.sessionId == c.sessionId && r.value.items == c.items
  {
    if ValidCart(c) then Some(Recompute(c, now)) else None
  }

  /** Saving a cart whose totals the route already recomputed stores the same document as
      saving it straight away. */
  lemma SaveRecomputed(c: Cart, now: int)
    ensures Save(Recompute(c, now), now) == if ValidCart(c) then Some(Recompute(c, now)) else None
  {
    var r := Recompute(c, now);
    assert ValidCart(r) <==> ValidCart(c);
    assert Recompute(r, now) == r;
  }

  /** The subtotal of a single line is its amount. */
  lemma SubtotalSingle(line: LineItem)
    ensures Subtotal([line]) == Amount(line)
  {
    assert [line][..0] == [];
  }

  /** The hook overrides whatever totals the document carried, and running it again
      changes nothing. */
  lemma RecomputeOverridesAndIsIdempotent(c: Cart, subtotal: real, tax: real, total: real, now: int)
    ensures Recompute(c.(subtotal := subtotal, tax := tax, total := total), now) == Recompute(c, now)
    ensures Recompute(Recompute(c, now), now) == Recompute(c, now)
  {
  }

  /** No lines price to zero, and a new cart's zero defaults already agree with its lines. */
  lemma EmptyCartTotals(c: Cart, now: int)
    requires c.items == []
    ensures var r := Recompute(c, now); r.subtotal == 0.0 && r.tax == 0.0 && r.total == 0.0
    ensures TotalsAgree(NewCart(c.sessionId, now))
  {
  }

  /** The subtotal of two runs of lines is the sum of their subtotals. */
  lemma {:induction false} SubtotalConcat(a: seq<LineItem>, b: seq<LineItem>)
    ensures Subtotal(a + b) == Subtotal(a) + Subtotal(b)
  {
    if b == [] {
      assert a + b == a;
    } else {
      var b' := b[..|b| - 1];
      assert (a + b)[..|a + b| - 1] == a + b';
      SubtotalConcat(a, b');
    }
  }

  /** Splits items around position i into the lines before, the line itself and the lines after. */
  lemma SplitAt(items: seq<LineItem>, i: nat)
    requires i < |items|
    ensures items == (items[..i] + [items[i]]) + items[i + 1..]
  {
    assert items[..i + 1] == items[..i] + [items[i]];
    assert items[..i + 1] + items[i + 1..] == items;
  }

  /** The subtotal of the lines before i, the line at i and the lines after i. */
  lemma SubtotalAround(items: seq<LineItem>, i: nat)
    requires i < |items|
    ensures Subtotal(items) == Subtotal(items[..i]) + Amount(items[i]) + Subtotal(items[i + 1..])
  {
    var a, b := items[..i], items[i + 1..];
    SplitAt(items, i);
    SubtotalConcat(a + [items[i]], b);
    SubtotalConcat(a, [items[i]]);
    SubtotalSingle(items[i]);
  }

  /** Replacing one line changes the subtotal by the difference of the two lines' amounts. */
  lemma SubtotalReplace(items: seq<LineItem>, i: nat, line: LineItem)
    requires i < |items|
    ensures Subtotal(items[i := line]) == Subtotal(items) - Amount(items[i]) + Amount(line)
  {
    var r := items[i := line];
    assert r[..i] == items[..i] && r[i + 1..] == items[i + 1..];
    SubtotalAround(items, i);
    SubtotalAround(r, i);
  }

  /** Dropping one line lowers the subtotal by that line's amount. */
  lemma SubtotalDrop(items: seq<LineItem>, i: nat)
    requires i < |items|
    ensures Subtotal(items[..i] + items[i + 1..]) == Subtotal(items) - Amount(items[i])
  {
    SubtotalAround(items, i);
    SubtotalConcat(items[..i], items[i + 1..]);
  }
}

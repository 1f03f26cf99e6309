/** The cart routes of routes/cartRoutes.js: one cart per session string, kept in a store
    the handlers read, edit and save. Lines are selected by their menuItemId. */
module CartRoutes {
  import opened Results
  import opened MenuItemModel
  import opened CartModel

  /** `items.findIndex(item => item.menuItemId.toString() === id)`. */
  function FindLine(items: seq<LineItem>, id: string): (r: int)
    ensures -1 <= r < |items|
    ensures r == -1 <==> forall j :: 0 <= j < |items| ==> items[j].menuItemId != id
    ensures 0 <= r ==> items[r].menuItemId == id && forall j :: 0 <= j < r ==> items[j].menuItemId != id
  {
    if items == [] then -1
    else if items[0].menuItemId == id then 0
    else
      var k := FindLine(items[1..], id);
      if k == -1 then -1 else k + 1
  }

  /** `items.filter(item => item.menuItemId.toString() !== id)`. */
  function WithoutLine(items: seq<LineItem>, id: string): (r: seq<LineItem>)
    ensures |r| <= |items|
    ensures forall k :: 0 <= k < |r| ==> r[k].menuItemId != id
    ensures |r| == |items| <==> forall j :: 0 <= j < |items| ==> items[j].menuItemId != id
  {
    if items == [] then []
    else if items[0].menuItemId == id then WithoutLine(items[1..], id)
    else [items[0]] + WithoutLine(items[1..], id)
  }

  /** The filter keeps every line without the id as often as it occurs, and nothing else. */
  lemma {:induction false} WithoutLineContents(items: seq<LineItem>, id: string)
    ensures forall l :: multiset(WithoutLine(items, id))[l] == if l.menuItemId == id then 0 else multiset(items)[l]
  {
    if items != [] {
      WithoutLineContents(items[1..], id);
      assert items == [items[0]] + items[1..];
    }
  }

  /** No two lines of a cart refer to the same menu item. */
  predicate UniqueIds(items: seq<LineItem>)
  {
    forall i, j :: 0 <= i < j < |items| ==> items[i].menuItemId != items[j].menuItemId
  }

  /** The quantity an add request asks for: the destructuring default of 1 applies only when
      the body leaves `quantity` out. */
  function RequestedQuantity(quantity: Option<int>): int
  {
    quantity.GetOr(1)
  }

  /** An omitted quantity counts as 1; a given one, whatever its value, is taken as is. */
  lemma RequestedQuantityDefault(q: int)
    ensures RequestedQuantity(None) == 1 && RequestedQuantity(Some(q)) == q
  {
  }

  /** The line edit of an add: an existing line for the id is merged, else a line is appended
      with the catalog item's current name and price. */
  function AddToLines(items: seq<LineItem>, menuItemId: string, item: MenuItem, quantity: int): (r: seq<LineItem>)
    ensures |r| == if FindLine(items, menuItemId) == -1 then |items| + 1 else |items|
    ensures exists j :: 0 <= j < |r| && r[j].menuItemId == menuItemId
  {
    var i := FindLine(items, menuItemId);
    if i != -1 then
      var r := items[i := items[i].(quantity := items[i].quantity + quantity)];
      assert r[i].menuItemId == menuItemId;
      r
    else
      var r := items + [LineItem(menuItemId, item.name, item.price, quantity)];
      assert r[|items|].menuItemId == menuItemId;
      r
  }

  /** Lines 56-72 of the add handler as written: `quantity +=` on the line found for the id,
      or a push of a new line with the catalog's name and price. */
  method MergeLine(items: seq<LineItem>, menuItemId: string, menuItem: MenuItem, quantity: int)
    returns (r: seq<LineItem>)
    ensures r == AddToLines(items, menuItemId, menuItem, quantity)
  {
    var existing := FindLine(items, menuItemId);
    if existing != -1 {
      var line := items[existing];
      r := items[existing := line.(quantity := line.quantity + quantity)];
    } else {
      r := items + [LineItem(menuItemId, menuItem.name, menuItem.price, quantity)];
    }
  }

  /** Adding an id a line already has grows that line's quantity, keeps its snapshot name and
      price, adds no line, and leaves every other line alone. */
  lemma AddMergesExisting(items: seq<LineItem>, menuItemId: string, item: MenuItem, quantity: int, i: nat)
    requires i < |items| && items[i].menuItemId == menuItemId && UniqueIds(items)
    ensures var r := AddToLines(items, menuItemId, item, quantity);
      && |r| == |items|
      && r[i].quantity == items[i].quantity + quantity
      && r[i].menuItemId == items[i].menuItemId && r[i].name == items[i].name && r[i].price == items[i].price
      && forall j :: 0 <= j < |items| && j != i ==> r[j] == items[j]
  {
    assert FindLine(items, menuItemId) == i;
  }

  /** Adding a new id appends exactly one line carrying the catalog's name and price. */
  lemma AddAppendsNew(items: seq<LineItem>, menuItemId: string, item: MenuItem, quantity: int)
    requires forall j :: 0 <= j < |items| ==> items[j].menuItemId != menuItemId
    ensures var r := AddToLines(items, menuItemId, item, quantity);
      && |r| == |items| + 1 && r[..|items|] == items
      && r[|items|] == LineItem(menuItemId, item.name, item.price, quantity)
  {
  }

  /** Merging instead of duplicating keeps the one-line-per-menu-item invariant. */
  lemma AddKeepsUnique(items: seq<LineItem>, menuItemId: string, item: MenuItem, quantity: int)
    requires UniqueIds(items)
    ensures UniqueIds(AddToLines(items, menuItemId, item, quantity))
  {
  }

  /** Merging q more units into a line adds q times its price to the line's amount. */
  lemma MergedAmount(line: LineItem, quantity: int)
    ensures Amount(line.(quantity := line.quantity + quantity)) == Amount(line) + line.price * quantity as real
  {
    var q0, q := line.quantity as real, quantity as real;
    assert (line.quantity + quantity) as real == q0 + q;
    assert line.price * (q0 + q) == line.price * q0 + line.price * q;
  }

  /** An add that merges into line i raises the subtotal by the requested quantity at that
      line's snapshot price, not at the catalog's current price. */
  lemma AddSubtotalMerged(items: seq<LineItem>, menuItemId: string, item: MenuItem, quantity: int, i: nat)
    requires i < |items| && FindLine(items, menuItemId) == i
    ensures Subtotal(AddToLines(items, menuItemId, item, quantity))
      == Subtotal(items) + items[i].price * quantity as real
  {
    assert AddToLines(items, menuItemId, item, quantity) == items[i := items[i].(quantity := items[i].quantity + quantity)];
    MergeSubtotal(items, i, quantity);
  }

  /** An add of an id no line has raises the subtotal by the amount of the appended line:
      the catalog's price times the requested quantity. */
  lemma AddSubtotalAppended(items: seq<LineItem>, menuItemId: string, item: MenuItem, quantity: int)
    requires forall j :: 0 <= j < |items| ==> items[j].menuItemId != menuItemId
    ensures Subtotal(AddToLines(items, menuItemId, item, quantity))
      == Subtotal(items) + Amount(LineItem(menuItemId, item.name, item.price, quantity))
  {
    var line := LineItem(menuItemId, item.name, item.price, quantity);
    assert AddToLines(items, menuItemId, item, quantity) == items + [line];
    AppendSubtotal(items, line);
  }

  lemma AppendSubtotal(items: seq<LineItem>, line: LineItem)
    ensures Subtotal(items + [line]) == Subtotal(items) + Amount(line)
  {
    SubtotalConcat(items, [line]);
    SubtotalSingle(line);
  }

  lemma MergeSubtotal(items: seq<LineItem>, i: nat, quantity: int)
    requires i < |items|
    ensures Subtotal(items[i := items[i].(quantity := items[i].quantity + quantity)])
      == Subtotal(items) + items[i].price * quantity as real
  {
    SubtotalReplace(items, i, items[i].(quantity := items[i].quantity + quantity));
    MergedAmount(items[i], quantity);
  }

  /** Two adds of the same new id with q1 and q2 leave one line of quantity q1 + q2. */
  lemma AddTwiceMerges(items: seq<LineItem>, menuItemId: string, item: MenuItem, q1: int, q2: int)
    requires forall j :: 0 <= j < |items| ==> items[j].menuItemId != menuItemId
    ensures var r := AddToLines(AddToLines(items, menuItemId, item, q1), menuItemId, item, q2);
      && |r| == |items| + 1 && r[..|items|] == items
      && r[|items|] == LineItem(menuItemId, item.name, item.price, q1 + q2)
  {
    var r1 := AddToLines(items, menuItemId, item, q1);
    assert r1 == items + [LineItem(menuItemId, item.name, item.price, q1)];
    assert forall j :: 0 <= j < |items| ==> r1[j] == items[j];
    assert r1[|items|].menuItemId == menuItemId;
    assert FindLine(r1, menuItemId) == |items|;
  }

  /** The save rejects an add whose line would end below quantity 1 (a non-positive quantity on
      a new line, or a merge that brings the line below 1). */
  lemma AddBelowOneRejected(c: Cart, menuItemId: string, item: MenuItem, quantity: int)
    requires var i := FindLine(c.items, menuItemId);
      (if i != -1 then c.items[i].quantity else 0) + quantity < 1
    ensures !ValidCart(c.(items := AddToLines(c.items, menuItemId, item, quantity)))
  {
    var i := FindLine(c.items, menuItemId);
    var r := AddToLines(c.items, menuItemId, item, quantity);
    if i != -1 {
      assert !ValidLine(r[i]);
    } else {
      assert !ValidLine(r[|c.items|]);
    }
  }

  /** Conversely, on a stored cart an add of an item with a name is accepted by the save
      whenever the line it touches ends at quantity 1 or more. */
  lemma {:induction false} AddAtLeastOneAccepted(sessionId: string, c: Cart, menuItemId: string, item: MenuItem, quantity: int)
    requires StoredCart(sessionId, c) && item.name != "" && menuItemId != ""
    requires var i := FindLine(c.items, menuItemId);
      (if i != -1 then c.items[i].quantity else 0) + quantity >= 1
    ensures ValidCart(c.(items := AddToLines(c.items, menuItemId, item, quantity)))
  {
    var i := FindLine(c.items, menuItemId);
    var r := AddToLines(c.items, menuItemId, item, quantity);
    if i != -1 {
      assert r == c.items[i := c.items[i].(quantity := c.items[i].quantity + quantity)];
      assert forall j :: 0 <= j < |r| ==> ValidLine(r[j]) by {
        forall j | 0 <= j < |r| ensures ValidLine(r[j]) {
          if j != i { assert r[j] == c.items[j]; }
        }
      }
    } else {
      assert r == c.items + [LineItem(menuItemId, item.name, item.price, quantity)];
      assert forall j :: 0 <= j < |r| ==> ValidLine(r[j]) by {
        forall j | 0 <= j < |r| ensures ValidLine(r[j]) {
          if j < |c.items| { assert r[j] == c.items[j]; }
        }
      }
    }
  }

  /** Setting the quantity of line i changes that line's quantity and nothing else: the same
      lines in the same order, the ids still distinct, and the subtotal moved by the
      difference of the line's old and new amounts. */
  lemma UpdateOnlyMatchedLine(items: seq<LineItem>, i: nat, quantity: int)
    requires UniqueIds(items) && i < |items|
    ensures var r := items[i := items[i].(quantity := quantity)];
      && |r| == |items| && UniqueIds(r)
      && r[i].quantity == quantity
      && r[i].menuItemId == items[i].menuItemId && r[i].name == items[i].name && r[i].price == items[i].price
      && (forall j :: 0 <= j < |items| && j != i ==> r[j] == items[j])
      && Subtotal(r) == Subtotal(items) - Amount(items[i]) + Amount(r[i])
  {
    SubtotalReplace(items, i, items[i].(quantity := quantity));
  }

  /** An absent id is no line at all to the filter. */
  lemma {:induction false} WithoutAbsentLine(items: seq<LineItem>, id: string)
    requires forall j :: 0 <= j < |items| ==> items[j].menuItemId != id
    ensures WithoutLine(items, id) == items
  {
    if items != [] {
      WithoutAbsentLine(items[1..], id);
      assert items == [items[0]] + items[1..];
    }
  }

  /** Under the uniqueness invariant the filter removes exactly the one matched line and
      keeps the order of the rest. */
  lemma {:induction false} WithoutUniqueLine(items: seq<LineItem>, id: string, i: nat)
    requires UniqueIds(items) && i < |items| && items[i].menuItemId == id
    ensures WithoutLine(items, id) == items[..i] + items[i + 1..]
  {
    var tail := items[1..];
    assert UniqueIds(tail) by {
      forall a, b | 0 <= a < b < |tail| ensures tail[a].menuItemId != tail[b].menuItemId {
        assert tail[a] == items[a + 1] && tail[b] == items[b + 1];
      }
    }
    if i == 0 {
      assert forall j :: 0 <= j < |tail| ==> tail[j] == items[j + 1];
      WithoutAbsentLine(tail, id);
    } else {
      assert items[0].menuItemId != id;
      assert tail[i - 1] == items[i];
      WithoutUniqueLine(tail, id, i - 1);
      assert tail[..i - 1] == items[1..i];
      assert tail[i..] == items[i + 1..];
      assert items[..i] == [items[0]] + items[1..i];
    }
  }

  /** Position k of items with line i dropped is position k or k + 1 of items. */
  lemma DroppedAt(items: seq<LineItem>, i: nat, k: nat)
    requires i < |items| && k < |items| - 1
    ensures (items[..i] + items[i + 1..])[k] == items[if k < i then k else k + 1]
  {
  }

  /** Dropping a line keeps the ids of the others distinct. */
  lemma DropKeepsUnique(items: seq<LineItem>, i: nat)
    requires UniqueIds(items) && i < |items|
    ensures UniqueIds(items[..i] + items[i + 1..])
  {
    var r := items[..i] + items[i + 1..];
    forall a, b | 0 <= a < b < |r| ensures r[a].menuItemId != r[b].menuItemId {
      DroppedAt(items, i, a);
      DroppedAt(items, i, b);
    }
  }

  /** Removing the selected line from a cart with unique ids: one line fewer, the subtotal
      lower by that line's amount, and the invariant kept. */
  lemma RemoveUnique(items: seq<LineItem>, id: string)
    requires UniqueIds(items) && FindLine(items, id) != -1
    ensures var i, r := FindLine(items, id), WithoutLine(items, id);
      && |r| == |items| - 1
      && Subtotal(r) == Subtotal(items) - Amount(items[i])
      && UniqueIds(r)
  {
    var i := FindLine(items, id);
    WithoutUniqueLine(items, id, i);
    SubtotalDrop(items, i);
    DropKeepsUnique(items, i);
  }

  /** Removing the only line of a cart leaves subtotal, tax and total all zero. */
  lemma RemovingLastLineZeroes(c: Cart, now: int)
    requires |c.items| == 1
    ensures var r := Recompute(c.(items := WithoutLine(c.items, c.items[0].menuItemId)), now);
      r.items == [] && r.subtotal == 0.0 && r.tax == 0.0 && r.total == 0.0
  {
    assert c.items[1..] == [];
  }

  /** What a successful remove saves keeps the store invariant. */
  lemma RemoveKeepsStored(sessionId: string, c: Cart, id: string, now: int)
    requires StoredCart(sessionId, c) && |WithoutLine(c.items, id)| != |c.items|
    ensures ValidCart(c.(items := WithoutLine(c.items, id)))
    ensures StoredCart(sessionId, Recompute(c.(items := WithoutLine(c.items, id)), now))
  {
    RemoveUnique(c.items, id);
    var i := FindLine(c.items, id);
    WithoutUniqueLine(c.items, id, i);
    var r := c.items[..i] + c.items[i + 1..];
    forall k | 0 <= k < |r| ensures ValidLine(r[k]) {
      DroppedAt(c.items, i, k);
    }
  }

  /** A worked case: adding 2 of a 10.00 item to a new cart, then 1 more of it, gives one line
      of quantity 3 and totals 20.00 / 0.40 / 20.40, then 30.00 / 0.60 / 30.60. */
  lemma AddTwiceScenario(item: MenuItem, now: int)
    requires item.price == 10.0
    ensures var c1 := Recompute(NewCart("sess1", now).(items := AddToLines([], "A", item, 2)), now);
      && c1.subtotal == 20.0 && c1.tax == 0.4 && c1.total == 20.4
      && var c2 := Recompute(c1.(items := AddToLines(c1.items, "A", item, 1)), now);
      && c2.items == [LineItem("A", item.name, 10.0, 3)]
      && c2.subtotal == 30.0 && c2.tax == 0.6 && c2.total == 30.6
  {
    var l1 := LineItem("A", item.name, 10.0, 2);
    assert AddToLines([], "A", item, 2) == [l1];
    SubtotalSingle(l1);
    var l2 := LineItem("A", item.name, 10.0, 3);
    assert FindLine([l1], "A") == 0;
    assert AddToLines([l1], "A", item, 1) == [l2];
    SubtotalSingle(l2);
  }

  /** What the store keeps under each session key. */
  predicate StoredCart(sessionId: string, c: Cart)
  {
    c.sessionId == sessionId && ValidCart(c) && TotalsAgree(c) && UniqueIds(c.items)
  }

  /** What a successful add saves keeps the store invariant. */
  lemma AddKeepsStored(sessionId: string, c: Cart, menuItemId: string, item: MenuItem, quantity: int, now: int)
    requires c.sessionId == sessionId && UniqueIds(c.items)
    requires ValidCart(c.(items := AddToLines(c.items, menuItemId, item, quantity)))
    ensures StoredCart(sessionId, Recompute(c.(items := AddToLines(c.items, menuItemId, item, quantity)), now))
  {
    AddKeepsUnique(c.items, menuItemId, item, quantity);
  }

  /** The cart collection, keyed by session string. `catalog` arguments are the menu item
      collection, keyed by _id, which these routes only read. */
  class CartStore {
    var carts: map<string, Cart>

    ghost predicate Valid()
      reads this
    {
      forall sid :: sid in carts ==> StoredCart(sid, carts[sid])
    }

    constructor ()
      ensures Valid() && carts == map[]
    {
      carts := map[];
    }

    /** GET /:sessionId. An existing cart is returned with its totals recomputed and
        lastUpdated stamped, without being saved; an absent one is created empty and saved. */
    method GetOrCreate(sessionId: string, now: int) returns (r: Outcome<Cart>)
      requires Valid()
      modifies this
      ensures Valid()
      ensures sessionId in old(carts) ==>
        carts == old(carts) && r == Ok(old(carts)[sessionId].(lastUpdated := now))
      ensures sessionId !in old(carts) && sessionId != "" ==>
        carts == old(carts)[sessionId := NewCart(sessionId, now)] && r == Ok(NewCart(sessionId, now))
      ensures sessionId !in old(carts) && sessionId == "" ==>
        carts == old(carts) && r == ValidationFailed
    {
      var cart: Cart;
      if sessionId in carts {
        cart := carts[sessionId];
      } else {
        cart := NewCart(sessionId, now);
        var saved := Save(cart, now);
        if saved.None? {
          return ValidationFailed;
        }
        cart := saved.value;
        carts := carts[sessionId := cart];
      }
      cart := Recompute(cart, now);
      r := Ok(cart);
    }

    /** POST /:sessionId/items. The menu item must exist (its `active` flag is not looked at);
        the session's cart, or a new one, gets the line merged or appended, and is saved. */
    method AddItem(catalog: map<string, MenuItem>, sessionId: string, menuItemId: string,
                   quantity: Option<int>, now: int) returns (r: Outcome<Cart>)
      requires Valid()
      modifies this
      ensures Valid()
      ensures menuItemId !in catalog ==>
        r == NotFound("Menu item not found", None) && carts == old(carts)
      ensures menuItemId in catalog ==>
        var cart := if sessionId in old(carts) then old(carts)[sessionId] else NewCart(sessionId, now);
        var edited := cart.(items := AddToLines(cart.items, menuItemId, catalog[menuItemId], RequestedQuantity(quantity)));
        if ValidCart(edited) then
          r == Ok(Recompute(edited, now)) && carts == old(carts)[sessionId := Recompute(edited, now)]
        else
          r == ValidationFailed && carts == old(carts)
    {
      if menuItemId !in catalog {
        return NotFound("Menu item not found", None);
      }
      var menuItem := catalog[menuItemId];
      var qty := RequestedQuantity(quantity);
      var cart: Cart;
      if sessionId in carts {
        cart := carts[sessionId];
      } else {
        cart := NewCart(sessionId, now);
      }
      ghost var before := cart;
      ghost var edited := cart.(items := AddToLines(cart.items, menuItemId, menuItem, qty));
      var items := MergeLine(cart.items, menuItemId, menuItem, qty);
      cart := cart.(items := items);
      cart := Recompute(cart, now);
      var saved := Save(cart, now);
      SaveRecomputed(edited, now);
      if saved.None? {
        assert !ValidCart(edited);
        return ValidationFailed;
      }
      assert ValidCart(edited) && saved.value == Recompute(edited, now);
      AddKeepsStored(sessionId, before, menuItemId, menuItem, qty, now);
      carts := carts[sessionId := saved.value];
      r := Ok(saved.value);
    }

    /** PUT /:sessionId/items/:itemId. A missing, zero or negative quantity is refused before
        any lookup; otherwise the line whose menuItemId is itemId takes the new quantity. */
    method UpdateQuantity(sessionId: string, itemId: string, quantity: Option<int>, now: int)
      returns (r: Outcome<Cart>)
      requires Valid()
      modifies this
      ensures Valid()
      ensures quantity.None? || quantity.value < 1 ==>
        r == InvalidArgument("Quantity must be at least 1") && carts == old(carts)
      ensures quantity.Some? && quantity.value >= 1 && sessionId !in old(carts) ==>
        r == NotFound("Cart not found", None) && carts == old(carts)
      ensures quantity.Some? && quantity.value >= 1 && sessionId in old(carts) ==>
        var cart := old(carts)[sessionId];
        var i := FindLine(cart.items, itemId);
        if i == -1 then
          r == NotFound("Item not found in cart", None) && carts == old(carts)
        else
          var updated := Recompute(cart.(items := cart.items[i := cart.items[i].(quantity := quantity.value)]), now);
          r == Ok(updated) && carts == old(carts)[sessionId := updated]
    {
      if quantity.None? || quantity.value < 1 {
        return InvalidArgument("Quantity must be at least 1");
      }
      if sessionId !in carts {
        return NotFound("Cart not found", None);
      }
      var cart := carts[sessionId];
      var i := FindLine(cart.items, itemId);
      if i == -1 {
        return NotFound("Item not found in cart", None);
      }
      cart := cart.(items := cart.items[i := cart.items[i].(quantity := quantity.value)]);
      cart := Recompute(cart, now);
      var saved := Save(cart, now);
      if saved.None? {
        assert false;
        return ValidationFailed;
      }
      carts := carts[sessionId := saved.value];
      r := Ok(saved.value);
    }

    /** DELETE /:sessionId/items/:itemId. Every line whose menuItemId is itemId is filtered
        out; if none was, the reply names the id searched for. */
    method RemoveItem(sessionId: string, itemId: string, now: int) returns (r: Outcome<Cart>)
      requires Valid()
      modifies this
      ensures Valid()
      ensures sessionId !in old(carts) ==>
        r == NotFound("Cart not found", None) && carts == old(carts)
      ensures sessionId in old(carts) ==>
        var cart := old(carts)[sessionId];
        var kept := WithoutLine(cart.items, itemId);
        if |kept| == |cart.items| then
          r == NotFound("Item not found in cart", Some("Item with menuItemId " + itemId + " not found"))
          && carts == old(carts)
        else
          var updated := Recompute(cart.(items := kept), now);
          r == Ok(updated) && carts == old(carts)[sessionId := updated]
    {
      if sessionId !in carts {
        return NotFound("Cart not found", None);
      }
      var cart := carts[sessionId];
      var initialLength := |cart.items|;
      cart := cart.(items := WithoutLine(cart.items, itemId));
      if |cart.items| == initialLength {
        return NotFound("Item not found in cart", Some("Item with menuItemId " + itemId + " not found"));
      }
      RemoveKeepsStored(sessionId, carts[sessionId], itemId, now);
      cart := Recompute(cart, now);
      var saved := Save(cart, now);
      if saved.None? {
        assert false;
        return ValidationFailed;
      }
      carts := carts[sessionId := saved.value];
      r := Ok(saved.value);
    }

    /** DELETE /:sessionId. The cart stays, emptied and with zero totals. */
    method Clear(sessionId: string, now: int) returns (r: Outcome<string>)
      requires Valid()
      modifies this
      ensures Valid()
      ensures sessionId !in old(carts) ==>
        r == NotFound("Cart not found", None) && carts == old(carts)
      ensures sessionId in old(carts) ==>
        r == Ok("Cart cleared successfully")
        && carts == old(carts)[sessionId := Cart(sessionId, [], 0.0, 0.0, 0.0, now)]
    {
      if sessionId !in carts {
        return NotFound("Cart not found", None);
      }
      var cart := carts[sessionId];
      cart := cart.(items := [], subtotal := 0.0, tax := 0.0, total := 0.0, lastUpdated := now);
      var saved := Save(cart, now);
      if saved.None? {
        assert false;
        return ValidationFailed;
      }
      carts := carts[sessionId := saved.value];
      r := Ok("Cart cleared successfully");
    }
  }
}

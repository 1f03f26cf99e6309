/** The order routes of routes/orderRoutes.js: pricing a requested item list into an order,
    the closed status set and its update, and the filter of the order listing. */
module OrderRoutes {
  import opened Results
  import opened Sorting
  import opened MenuItemModel
  import opened CartModel

  datatype Status = Pending | Confirmed | Preparing | Ready | Completed | Cancelled

  /** `validStatuses`, in the source's order. */
  const ValidStatuses: seq<string> := ["pending", "confirmed", "preparing", "ready", "completed", "cancelled"]

  function StatusName(s: Status): string
  {
    match s
    case Pending => "pending"
    case Confirmed => "confirmed"
    case Preparing => "preparing"
    case Ready => "ready"
    case Completed => "completed"
    case Cancelled => "cancelled"
  }

  /** `validStatuses.includes(status)`, returning the status named. */
  function ParseStatus(s: string): (r: Option<Status>)
    ensures r.Some? <==> s in ValidStatuses
    ensures r.Some? ==> StatusName(r.value) == s
  {
    if s == "pending" then Some(Pending)
    else if s == "confirmed" then Some(Confirmed)
    else if s == "preparing" then Some(Preparing)
    else if s == "ready" then Some(Ready)
    else if s == "completed" then Some(Completed)
    else if s == "cancelled" then Some(Cancelled)
    else None
  }

  /** Every status is accepted under its own name, and names no other. */
  lemma ParseStatusName(s: Status)
    ensures ParseStatus(StatusName(s)) == Some(s)
  {
  }

  /** One element of the request's `items`. */
  datatype RequestedItem = RequestedItem(menuItemId: string, quantity: int)

  /** One stored order; `id` is the document's _id and `customerInfo` the request's payload,
      passed through unread. */
  datatype Order = Order(
    id: string,
    orderNumber: string,
    items: seq<LineItem>,
    subtotal: real,
    tax: real,
    total: real,
    customerInfo: string,
    status: Status,
    createdAt: int)

  /** The result of resolving a request against the catalog: every line, or the first id
      that did not resolve. */
  datatype Pricing = Priced(lines: seq<LineItem>) | Missing(menuItemId: string)

  /** The line pushed for one requested item: the catalog's name and price, the request's
      quantity. */
  function OrderLine(req: RequestedItem, m: MenuItem): (line: LineItem)
    ensures Amount(line) == m.price * req.quantity as real
  {
    LineItem(req.menuItemId, m.name, m.price, req.quantity)
  }

  /** The loop of POST /: resolves the items in request order and stops at the first id the
      catalog lacks. */
  function PriceAll(catalog: map<string, MenuItem>, reqs: seq<RequestedItem>): (r: Pricing)
    ensures r.Priced? <==> forall i :: 0 <= i < |reqs| ==> reqs[i].menuItemId in catalog
    ensures r.Priced? ==> |r.lines| == |reqs| && forall i :: 0 <= i < |reqs| ==>
      reqs[i].menuItemId in catalog && r.lines[i] == OrderLine(reqs[i], catalog[reqs[i].menuItemId])
    ensures r.Missing? ==> r.menuItemId !in catalog
    ensures r.Missing? ==>
              exists i :: 0 <= i < |reqs| && reqs[i].menuItemId == r.menuItemId &&
                          forall j :: 0 <= j < i ==> reqs[j].menuItemId in catalog
  {
    if reqs == [] then Priced([])
    else
      var init, last := reqs[..|reqs| - 1], reqs[|reqs| - 1];
      match PriceAll(catalog, init)
      case Missing(id) => Missing(id)
      case Priced(lines) =>
        if last.menuItemId in catalog then Priced(lines + [OrderLine(last, catalog[last.menuItemId])])
        else Missing(last.menuItemId)
  }

  /** Once an id fails to resolve, no later item changes the outcome. */
  lemma {:induction false} MissingStays(catalog: map<string, MenuItem>, reqs: seq<RequestedItem>, n: nat)
    requires n <= |reqs| && PriceAll(catalog, reqs[..n]).Missing?
    ensures PriceAll(catalog, reqs) == PriceAll(catalog, reqs[..n])
  {
    if n < |reqs| {
      var init := reqs[..|reqs| - 1];
      assert init[..n] == reqs[..n];
      MissingStays(catalog, init, n);
      assert PriceAll(catalog, init).Missing?;
      assert PriceAll(catalog, reqs) == PriceAll(catalog, init);
    } else {
      assert reqs[..n] == reqs;
    }
  }

  /** The loop itself: the lines pushed so far and the running subtotal, with the early
      return on the first id the catalog lacks. */
  method PriceItems(catalog: map<string, MenuItem>, reqs: seq<RequestedItem>)
    returns (pricing: Pricing, subtotal: real)
    ensures pricing == PriceAll(catalog, reqs)
    ensures pricing.Priced? ==> subtotal == Subtotal(pricing.lines)
  {
    var orderItems: seq<LineItem> := [];
    subtotal := 0.0;
    var i := 0;
    while i < |reqs|
      invariant 0 <= i <= |reqs|
      invariant PriceAll(catalog, reqs[..i]) == Priced(orderItems)
      invariant subtotal == Subtotal(orderItems)
    {
      var item := reqs[i];
      assert reqs[..i + 1][..i] == reqs[..i];
      if item.menuItemId !in catalog {
        MissingStays(catalog, reqs, i + 1);
        return Missing(item.menuItemId), subtotal;
      }
      var menuItem := catalog[item.menuItemId];
      var line := OrderLine(item, menuItem);
      assert (orderItems + [line])[..|orderItems|] == orderItems;
      orderItems := orderItems + [line];
      subtotal := subtotal + menuItem.price * item.quantity as real;
      i := i + 1;
    }
    assert reqs[..i] == reqs;
    pricing := Priced(orderItems);
  }

  /** The decimal digits of a non-negative integer, as JavaScript prints it. */
  function NatToString(n: nat): (s: string)
    ensures |s| >= 1 && forall i :: 0 <= i < |s| ==> '0' <= s[i] <= '9'
  {
    var digit := ('0' as int + n % 10) as char;
    if n < 10 then [digit] else NatToString(n / 10) + [digit]
  }

  /** The value of a string of decimal digits. */
  function DigitsValue(s: string): nat
    requires forall i :: 0 <= i < |s| ==> '0' <= s[i] <= '9'
  {
    if s == [] then 0 else DigitsValue(s[..|s| - 1]) * 10 + (s[|s| - 1] as int - '0' as int)
  }

  lemma {:induction false} NatToStringValue(n: nat)
    ensures DigitsValue(NatToString(n)) == n
  {
    if n >= 10 {
      NatToStringValue(n / 10);
      var s := NatToString(n);
      assert s[..|s| - 1] == NatToString(n / 10);
    }
  }

  /** Math.floor(Math.random() * 1000) for a draw in [0, 1). */
  function RandomSuffix(random: real): (r: int)
    requires 0.0 <= random < 1.0
    ensures 0 <= r < 1000
  {
    (random * 1000.0).Floor
  }

  /** 'ORD-' + Date.now() + '-' + suffix. */
  function OrderNumber(timestamp: nat, suffix: nat): (s: string)
    ensures |s| >= 7 && s[..4] == "ORD-"
  {
    "ORD-" + NatToString(timestamp) + "-" + NatToString(suffix)
  }

  /** The first position of '-' in s, or -1. */
  function IndexOfDash(s: string): (k: int)
    ensures -1 <= k < |s|
    ensures k == -1 ==> forall i :: 0 <= i < |s| ==> s[i] != '-'
    ensures 0 <= k ==> s[k] == '-' && forall i :: 0 <= i < k ==> s[i] != '-'
  {
    if s == [] then -1
    else if s[0] == '-' then 0
    else var k := IndexOfDash(s[1..]); if k == -1 then -1 else k + 1
  }

  predicate IsDigits(s: string)
  {
    s != [] && forall i :: 0 <= i < |s| ==> '0' <= s[i] <= '9'
  }

  /** Reads an order number back into its timestamp and suffix. */
  function ParseOrderNumber(s: string): Option<(nat, nat)>
  {
    if |s| < 4 || s[..4] != "ORD-" then None
    else
      var rest := s[4..];
      var k := IndexOfDash(rest);
      if k == -1 then None
      else
        var a, b := rest[..k], rest[k + 1..];
        if IsDigits(a) && IsDigits(b) then Some((DigitsValue(a), DigitsValue(b))) else None
  }

  /** The order number carries its timestamp and suffix recoverably. */
  lemma OrderNumberRoundTrip(timestamp: nat, suffix: nat)
    ensures ParseOrderNumber(OrderNumber(timestamp, suffix)) == Some((timestamp, suffix))
  {
    var a, b := NatToString(timestamp), NatToString(suffix);
    var s := OrderNumber(timestamp, suffix);
    assert s[..4] == "ORD-";
    var rest := s[4..];
    assert rest == a + "-" + b;
    assert rest[|a|] == '-';
    assert forall i :: 0 <= i < |a| ==> rest[i] == a[i];
    assert IndexOfDash(rest) == |a|;
    assert rest[..|a|] == a && rest[|a| + 1..] == b;
    NatToStringValue(timestamp);
    NatToStringValue(suffix);
  }

  /** Distinct (timestamp, suffix) pairs give distinct order numbers. */
  lemma OrderNumberInjective(t1: nat, s1: nat, t2: nat, s2: nat)
    requires OrderNumber(t1, s1) == OrderNumber(t2, s2)
    ensures t1 == t2 && s1 == s2
  {
    OrderNumberRoundTrip(t1, s1);
    OrderNumberRoundTrip(t2, s2);
  }

  /** The order POST / builds from its priced lines. */
  function NewOrder(id: string, lines: seq<LineItem>, customerInfo: string, now: nat, suffix: nat): (o: Order)
    ensures o.status == Pending && o.items == lines && o.createdAt == now
    ensures o.id == id && o.customerInfo == customerInfo && o.orderNumber == OrderNumber(now, suffix)
    ensures o.subtotal == Subtotal(lines) && o.tax == o.subtotal * TaxRate && o.total == o.subtotal + o.tax
  {
    var subtotal := Subtotal(lines);
    var tax := subtotal * TaxRate;
    Order(id, OrderNumber(now, suffix), lines, subtotal, tax, subtotal + tax, customerInfo, Pending, now)
  }

  /** Totals of a stored order agree with its lines; nothing later changes either. */
  predicate OrderTotalsAgree(o: Order)
  {
    o.subtotal == Subtotal(o.items) && o.tax == o.subtotal * TaxRate && o.total == o.subtotal + o.tax
  }

  /** The order price a request fixes: the sum of catalog price times requested quantity. */
  lemma {:induction false} PricedSubtotal(catalog: map<string, MenuItem>, reqs: seq<RequestedItem>)
    requires PriceAll(catalog, reqs).Priced?
    ensures Subtotal(PriceAll(catalog, reqs).lines) == RequestedTotal(catalog, reqs)
  {
    if reqs != [] {
      var init := reqs[..|reqs| - 1];
      PricedSubtotal(catalog, init);
      var lines := PriceAll(catalog, reqs).lines;
      assert lines[..|lines| - 1] == PriceAll(catalog, init).lines;
    }
  }

  /** Σ catalog price × requested quantity over a request whose ids all resolve. */
  function RequestedTotal(catalog: map<string, MenuItem>, reqs: seq<RequestedItem>): real
    requires forall i :: 0 <= i < |reqs| ==> reqs[i].menuItemId in catalog
  {
    if reqs == [] then 0.0
    else
      var last := reqs[|reqs| - 1];
      RequestedTotal(catalog, reqs[..|reqs| - 1]) + catalog[last.menuItemId].price * last.quantity as real
  }

  /** A worked case: 2 of a 10.00 item price to 20.00 / 0.40 / 20.40, pending. */
  lemma PlaceOrderScenario(catalog: map<string, MenuItem>, id: string, info: string, now: nat, suffix: nat)
    requires "A" in catalog && catalog["A"].price == 10.0
    ensures var p := PriceAll(catalog, [RequestedItem("A", 2)]);
      && p == Priced([LineItem("A", catalog["A"].name, 10.0, 2)])
      && var o := NewOrder(id, p.lines, info, now, suffix);
      && o.subtotal == 20.0 && o.tax == 0.4 && o.total == 20.4 && o.status == Pending
  {
    var line := LineItem("A", catalog["A"].name, 10.0, 2);
    assert [RequestedItem("A", 2)][..0] == [];
    SubtotalSingle(line);
  }

  /** The query GET / builds: `status` only when given non-empty, a createdAt range only when
      a start or an end date is given. */
  datatype DateRange = DateRange(gte: Option<int>, lte: Option<int>)
  datatype OrderQuery = OrderQuery(status: Option<string>, createdAt: Option<DateRange>)

  function BuildQuery(status: Option<string>, startDate: Option<int>, endDate: Option<int>): (q: OrderQuery)
    ensures q.status.Some? <==> status.Some? && status.value != ""
    ensures q.createdAt.Some? <==> startDate.Some? || endDate.Some?
  {
    OrderQuery(
      if status.Some? && status.value != "" then status else None,
      if startDate.Some? || endDate.Some? then Some(DateRange(startDate, endDate)) else None)
  }

  /** Whether the store's find selects o for query q. */
  predicate Matches(q: OrderQuery, o: Order)
  {
    && (q.status.Some? ==> StatusName(o.status) == q.status.value)
    && (q.createdAt.Some? ==>
          && (q.createdAt.value.gte.Some? ==> q.createdAt.value.gte.value <= o.createdAt)
          && (q.createdAt.value.lte.Some? ==> o.createdAt <= q.createdAt.value.lte.value))
  }

  /** The listing filter in the request's own terms: each filter applies only when given,
      and both date bounds are inclusive. */
  lemma QueryMeaning(status: Option<string>, startDate: Option<int>, endDate: Option<int>, o: Order)
    ensures Matches(BuildQuery(status, startDate, endDate), o) <==>
      && (status.Some? && status.value != "" ==> StatusName(o.status) == status.value)
      && (startDate.Some? ==> startDate.value <= o.createdAt)
      && (endDate.Some? ==> o.createdAt <= endDate.value)
  {
  }

  /** `sort({ createdAt: -1 })`: newest first. */
  predicate NewerFirst(a: Order, b: Order)
  {
    a.createdAt >= b.createdAt
  }

  /** The order collection, keyed by _id. */
  class OrderStore {
    var orders: map<string, Order>

    ghost predicate Valid()
      reads this
    {
      forall id :: id in orders ==> orders[id].id == id && OrderTotalsAgree(orders[id])
    }

    constructor ()
      ensures Valid() && orders == map[]
    {
      orders := map[];
    }

    /** POST /. `id` is the _id the store assigns, `now` the clock reading and `random` the
        draw of Math.random; nothing is saved unless every item resolves. */
    method PlaceOrder(catalog: map<string, MenuItem>, items: Option<seq<RequestedItem>>,
                      customerInfo: string, id: string, now: nat, random: real)
      returns (r: Outcome<Order>)
      requires Valid() && id !in orders
      requires 0.0 <= random < 1.0
      modifies this
      ensures Valid()
      ensures items.None? || items.value == [] ==>
        r == InvalidArgument("No items in order") && orders == old(orders)
      ensures items.Some? && items.value != [] && PriceAll(catalog, items.value).Missing? ==>
        r == NotFound("Menu item " + PriceAll(catalog, items.value).menuItemId + " not found", None)
        && orders == old(orders)
      ensures items.Some? && items.value != [] && PriceAll(catalog, items.value).Priced? ==>
        var order := NewOrder(id, PriceAll(catalog, items.value).lines, customerInfo, now, RandomSuffix(random));
        r == Ok(order) && orders == old(orders)[id := order]
    {
      if items.None? || |items.value| == 0 {
        return InvalidArgument("No items in order");
      }
      var pricing, subtotal := PriceItems(catalog, items.value);
      if pricing.Missing? {
        return NotFound("Menu item " + pricing.menuItemId + " not found", None);
      }
      var tax := subtotal * TaxRate;
      var total := subtotal + tax;
      var orderNumber := OrderNumber(now, RandomSuffix(random));
      var order := Order(id, orderNumber, pricing.lines, subtotal, tax, total, customerInfo, Pending, now);
      orders := orders[id := order];
      r := Ok(order);
    }

    /** GET /:id. */
    function Find(id: string): (r: Outcome<Order>)
      reads this
      ensures r.Ok? <==> id in orders
      ensures r.Ok? ==> r.value == orders[id]
      ensures !r.Ok? ==> r == NotFound("Order not found", None)
    {
      if id in orders then Ok(orders[id]) else NotFound("Order not found", None)
    }

    /** PATCH /:id/status. The status must be one of the six names; then it overwrites the
        stored one whatever that was, and nothing else of the order changes. */
    method UpdateStatus(id: string, status: string) returns (r: Outcome<Order>)
      requires Valid()
      modifies this
      ensures Valid()
      ensures ParseStatus(status).None? ==>
        r == InvalidArgument("Invalid status") && orders == old(orders)
      ensures ParseStatus(status).Some? && id !in old(orders) ==>
        r == NotFound("Order not found", None) && orders == old(orders)
      ensures ParseStatus(status).Some? && id in old(orders) ==>
        var updated := old(orders)[id].(status := ParseStatus(status).value);
        r == Ok(updated) && orders == old(orders)[id := updated]
    {
      var parsed := ParseStatus(status);
      if parsed.None? {
        return InvalidArgument("Invalid status");
      }
      if id !in orders {
        return NotFound("Order not found", None);
      }
      var order := orders[id].(status := parsed.value);
      orders := orders[id := order];
      r := Ok(order);
    }

    /** GET /: the stored orders the query selects, each once, newest first. */
    method ListOrders(status: Option<string>, startDate: Option<int>, endDate: Option<int>)
      returns (result: seq<Order>)
      requires Valid()
      ensures SortedBy(result, NewerFirst)
      ensures multiset(result) ==
        multiset(set o | o in orders.Values && Matches(BuildQuery(status, startDate, endDate), o))
    {
      var query := BuildQuery(status, startDate, endDate);
      var selected := set o | o in orders.Values && Matches(query, o);
      result := SortSet(selected, NewerFirst);
    }
  }
}

/** The pricing of `POST /api/orders` as a function of the request, the menu
    and the promos: the request is checked, the payment method looked up, every
    cart line resolved against the menu and summed, at most one promo applied
    as a floored percentage and the method's fixed fee added; the result is the
    order record and the payment record derived from it, or the error reply.
    The store applies the outcome (module Server). */
module Checkout {
  import opened Wrappers
  import opened Lookup
  import opened Records

  /** What the handler draws from outside: `createId('ord')`, `createId('pay')`
      and the two readings of the clock. */
  datatype Stamps = Stamps(orderId: string, paymentId: string, orderTime: Timestamp, paymentTime: Timestamp)

  datatype Placed = Placed(order: Order, payment: Payment)

  /** `Number(cartItem.qty || 1)`: an absent or zero quantity counts as one. */
  function Quantity(qty: Option<int>): (q: int)
    ensures q != 0
    ensures qty.Some? && qty.value != 0 ==> q == qty.value
    ensures qty.None? || qty.value == 0 ==> q == 1
  {
    if qty.Some? && qty.value != 0 then qty.value else 1
  }

  /** `db.menu.find((m) => m.id === id)`, as an index. */
  function MenuIndex(menu: seq<MenuItem>, id: string): (r: Option<nat>)
    ensures r.Some? ==> r.value < |menu| && menu[r.value].id == id
    ensures r.Some? ==> forall j :: 0 <= j < r.value ==> menu[j].id != id
    ensures r.None? <==> forall j :: 0 <= j < |menu| ==> menu[j].id != id
  {
    FirstIndex(menu, (m: MenuItem) => m.id == id)
  }

  /** `db.promos.find((p) => p.code === code && p.active)`, as an index. */
  function PromoIndex(promos: seq<Promo>, code: string): (r: Option<nat>)
    ensures r.Some? ==> r.value < |promos| && promos[r.value].code == code && promos[r.value].active
    ensures r.Some? ==> forall j :: 0 <= j < r.value ==> !(promos[j].code == code && promos[j].active)
    ensures r.None? <==> forall j :: 0 <= j < |promos| ==> !(promos[j].code == code && promos[j].active)
  {
    FirstIndex(promos, (p: Promo) => p.code == code && p.active)
  }

  /** `paymentMethods.find((m) => m.id === id)`, as an index into the fixed table. */
  function MethodIndex(id: string): (r: Option<nat>)
    ensures r.Some? ==> r.value < |PAYMENT_METHODS| && PAYMENT_METHODS[r.value].id == id
    ensures r.None? <==> forall j :: 0 <= j < |PAYMENT_METHODS| ==> PAYMENT_METHODS[j].id != id
  {
    FirstIndex(PAYMENT_METHODS, (m: PaymentMethod) => m.id == id)
  }

  /** `{ ...menuItem, qty, lineTotal }` for one cart line. */
  function Snapshot(item: MenuItem, qty: Option<int>): (l: OrderLine)
    ensures l.item == item && l.qty == Quantity(qty) && l.qty != 0
    ensures l.lineTotal == item.price * l.qty
  {
    var q := Quantity(qty);
    OrderLine(item, q, item.price * q)
  }

  /** Line `i` is the first line whose menu id is not on the menu. */
  predicate FirstMissing(items: seq<RequestLine>, menu: seq<MenuItem>, i: nat)
    requires i < |items|
  {
    && MenuIndex(menu, items[i].menuId).None?
    && forall j :: 0 <= j < i ==> MenuIndex(menu, items[j].menuId).Some?
  }

  /** The `items.map` of the handler: every line resolved and snapshotted in
      order, or the menu id of the first line that throws. */
  function ResolveLines(items: seq<RequestLine>, menu: seq<MenuItem>): (r: Result<seq<OrderLine>, string>)
    ensures r.Success? <==> forall i :: 0 <= i < |items| ==> MenuIndex(menu, items[i].menuId).Some?
    ensures r.Success? ==> |r.value| == |items|
    ensures r.Success? ==> forall i :: 0 <= i < |items| ==>
      MenuIndex(menu, items[i].menuId).Some? &&
      r.value[i] == Snapshot(menu[MenuIndex(menu, items[i].menuId).value], items[i].qty)
    ensures r.Failure? ==> exists i :: 0 <= i < |items| && FirstMissing(items, menu, i) && r.error == items[i].menuId
  {
    if items == [] then Success([])
    else match MenuIndex(menu, items[0].menuId)
      case None =>
        assert FirstMissing(items, menu, 0);
        Failure(items[0].menuId)
      case Some(k) =>
        match ResolveLines(items[1..], menu)
        case Failure(id) =>
          var i :| 0 <= i < |items[1..]| && FirstMissing(items[1..], menu, i) && id == items[1..][i].menuId;
          assert FirstMissing(items, menu, i + 1);
          Failure(id)
        case Success(rest) => Success([Snapshot(menu[k], items[0].qty)] + rest)
  }

  /** The sum of the line totals. */
  function SumTotals(lines: seq<OrderLine>): int {
    if lines == [] then 0 else lines[0].lineTotal + SumTotals(lines[1..])
  }

  /** Adding a line at the end adds its total: the handler's `subtotal += lineTotal`. */
  lemma {:induction false} SumTotalsSnoc(lines: seq<OrderLine>, line: OrderLine)
    ensures SumTotals(lines + [line]) == SumTotals(lines) + line.lineTotal
  {
    if lines == [] {
      assert lines + [line] == [line];
      assert [line][1..] == [];
    } else {
      assert (lines + [line])[1..] == lines[1..] + [line];
      SumTotalsSnoc(lines[1..], line);
    }
  }

  /** With non-negative prices and positive quantities no subtotal is negative. */
  lemma {:induction false} SumTotalsNonNegative(lines: seq<OrderLine>)
    requires forall i :: 0 <= i < |lines| ==> lines[i].lineTotal == lines[i].item.price * lines[i].qty
    requires forall i :: 0 <= i < |lines| ==> lines[i].item.price >= 0 && lines[i].qty >= 1
    ensures SumTotals(lines) >= 0
  {
    if lines != [] {
      var l := lines[0];
      assert l.item.price * l.qty >= 0;
      SumTotalsNonNegative(lines[1..]);
    }
  }

  /** The promo discount: the floor of `subtotal * discountPercent / 100` for the
      first active promo whose code is exactly the given one, else nothing. */
  function Discount(subtotal: int, promos: seq<Promo>, promoCode: Option<string>): int {
    if !Present(promoCode) then 0
    else match PromoIndex(promos, promoCode.value)
      case None => 0
      case Some(k) => subtotal * promos[k].discountPercent / 100
  }

  /** No discount without a truthy code or without an active promo of exactly
      that code; otherwise the largest `d` with `d * 100 <= subtotal * pct`. */
  lemma DiscountIsFloor(subtotal: int, promos: seq<Promo>, promoCode: Option<string>)
    ensures !Present(promoCode) ==> Discount(subtotal, promos, promoCode) == 0
    ensures Present(promoCode) && PromoIndex(promos, promoCode.value).None? ==> Discount(subtotal, promos, promoCode) == 0
    ensures Present(promoCode) && PromoIndex(promos, promoCode.value).Some? ==>
      var pct := promos[PromoIndex(promos, promoCode.value).value].discountPercent;
      var d := Discount(subtotal, promos, promoCode);
      d * 100 <= subtotal * pct < d * 100 + 100
  {
  }

  /** For percentages between 0 and 100 the discount never exceeds the subtotal. */
  lemma DiscountBounds(subtotal: int, promos: seq<Promo>, promoCode: Option<string>)
    requires subtotal >= 0
    requires forall i :: 0 <= i < |promos| ==> 0 <= promos[i].discountPercent <= 100
    ensures 0 <= Discount(subtotal, promos, promoCode) <= subtotal
  {
    if Present(promoCode) && PromoIndex(promos, promoCode.value).Some? {
      var pct := promos[PromoIndex(promos, promoCode.value).value].discountPercent;
      var d := Discount(subtotal, promos, promoCode);
      DiscountIsFloor(subtotal, promos, promoCode);
      assert d * 100 <= subtotal * pct < d * 100 + 100;
      ScaledBelow(subtotal, pct);
    }
  }

  /** Scaling by a percentage between 0 and 100 stays between 0 and the whole. */
  lemma ScaledBelow(x: int, pct: int)
    requires x >= 0 && 0 <= pct <= 100
    ensures 0 <= x * pct <= x * 100
  {
    assert x * 100 - x * pct == x * (100 - pct);
  }

  /** The request names a customer, a phone, a non-empty array of items and a payment method. */
  predicate Complete(req: OrderRequest) {
    && Present(req.customerName)
    && Present(req.customerPhone)
    && req.items.Some? && |req.items.value| > 0
    && Present(req.paymentMethodId)
  }

  /** At least one line, each with a non-zero quantity and `lineTotal == price * qty`. */
  predicate PricedLines(lines: seq<OrderLine>) {
    && |lines| > 0
    && forall i :: 0 <= i < |lines| ==>
         lines[i].qty != 0 && lines[i].lineTotal == lines[i].item.price * lines[i].qty
  }

  /** What every stored order satisfies: lines priced from their snapshot, the
      subtotal their sum, and `total == subtotal - discount + fee` with the fee
      of the chosen method. */
  predicate WellPriced(o: Order) {
    && PricedLines(o.items)
    && o.subtotal == SumTotals(o.items)
    && o.fee == o.paymentMethod.fee
    && o.total == o.subtotal - o.discount + o.fee
  }

  /** The payment `p` is the one derived from order `o`. */
  predicate Settles(o: Order, p: Payment) {
    && p.orderId == o.id
    && p.methodName == o.paymentMethod.name
    && p.amount == o.total
    && p.status == (if o.paymentMethod.instant then Paid else Pending)
  }

  /** The two stores side by side: the i-th payment belongs to the i-th order. */
  predicate Ledger(orders: seq<Order>, payments: seq<Payment>) {
    && |orders| == |payments|
    && forall i :: 0 <= i < |orders| ==> WellPriced(orders[i]) && Settles(orders[i], payments[i])
  }

  /** Prepending an order with its own payment keeps the ledger. */
  lemma LedgerPrepend(o: Order, p: Payment, orders: seq<Order>, payments: seq<Payment>)
    requires Ledger(orders, payments) && WellPriced(o) && Settles(o, p)
    ensures Ledger([o] + orders, [p] + payments)
  {
    forall i | 0 <= i < |orders| + 1
      ensures WellPriced(([o] + orders)[i]) && Settles(([o] + orders)[i], ([p] + payments)[i])
    {
      if i > 0 {
        assert ([o] + orders)[i] == orders[i - 1] && ([p] + payments)[i] == payments[i - 1];
      }
    }
  }

  /** A status change touches neither the prices nor the payment link. */
  lemma LedgerStatus(orders: seq<Order>, payments: seq<Payment>, k: nat, status: string)
    requires Ledger(orders, payments) && k < |orders|
    ensures Ledger(orders[k := orders[k].(status := status)], payments)
  {
  }

  /** Some cart line of the request names a menu id that is not on the menu. */
  predicate HasUnknownLine(req: OrderRequest, menu: seq<MenuItem>)
    requires req.items.Some?
  {
    exists i :: 0 <= i < |req.items.value| && MenuIndex(menu, req.items.value[i].menuId).None?
  }

  /** The whole handler of `POST /api/orders` as a value: the reply and, on
      success, the records to prepend. */
  function PlaceOrder(req: OrderRequest, menu: seq<MenuItem>, promos: seq<Promo>, stamps: Stamps): Response<Placed>
  {
    if !Complete(req) then Fail(400, MSG_ORDER_INCOMPLETE)
    else match MethodIndex(req.paymentMethodId.value)
      case None => Fail(400, MSG_BAD_PAYMENT_METHOD)
      case Some(m) =>
        var pm := PAYMENT_METHODS[m];
        match ResolveLines(req.items.value, menu)
        case Failure(id) => Fail(500, MissingMenuMessage(id))
        case Success(lines) =>
          var subtotal := SumTotals(lines);
          Ok(201, Assemble(req, pm, lines, subtotal, Discount(subtotal, promos, req.promoCode), stamps))
  }

  /** The order object literal of the handler, with the total worked out from
      the accumulated subtotal and the discount, and the payment derived from it. */
  function Assemble(req: OrderRequest, pm: PaymentMethod, lines: seq<OrderLine>, subtotal: int, discount: int, stamps: Stamps): Placed
    requires Complete(req)
  {
    var total := subtotal - discount + pm.fee;
    var order := Order(
      stamps.orderId, stamps.orderTime,
      req.customerName.value, req.customerPhone.value,
      if Present(req.deliveryAddress) then req.deliveryAddress.value else PICKUP,
      AWAITING_CONFIRMATION, lines, pm,
      subtotal, discount, pm.fee, total,
      if Present(req.promoCode) then req.promoCode else None);
    var payment := Payment(
      stamps.paymentId, order.id, pm.name, total,
      if pm.instant then Paid else Pending, stamps.paymentTime);
    Placed(order, payment)
  }

  /** The three ways an order is refused, in the order the handler checks
      them: an incomplete request (400), an unknown payment method (400), and a
      cart line whose menu id is unknown, which throws and is answered with 500
      naming the first such id. Nothing else is refused. */
  lemma PlaceOrderRejects(req: OrderRequest, menu: seq<MenuItem>, promos: seq<Promo>, stamps: Stamps)
    ensures var r := PlaceOrder(req, menu, promos, stamps);
      && (!Complete(req) ==> r == Fail(400, MSG_ORDER_INCOMPLETE))
      && (Complete(req) && MethodIndex(req.paymentMethodId.value).None? ==> r == Fail(400, MSG_BAD_PAYMENT_METHOD))
      && (Complete(req) && MethodIndex(req.paymentMethodId.value).Some? ==> (r.Fail? <==> HasUnknownLine(req, menu)))
      && (r.Fail? ==> r.code in {400, 500})
      && (r.Fail? && r.code == 500 ==>
            exists i :: 0 <= i < |req.items.value| &&
              FirstMissing(req.items.value, menu, i) && r.message == MissingMenuMessage(req.items.value[i].menuId))
  {
  }

  /** The first guard: a request is refused as incomplete exactly when a
      name, a phone, a non-empty item list or a payment method is missing. */
  lemma IncompleteRefused(req: OrderRequest, menu: seq<MenuItem>, promos: seq<Promo>, stamps: Stamps)
    ensures PlaceOrder(req, menu, promos, stamps) == Fail(400, MSG_ORDER_INCOMPLETE) <==> !Complete(req)
  {
    assert MSG_ORDER_INCOMPLETE != MSG_BAD_PAYMENT_METHOD by {
      assert MSG_ORDER_INCOMPLETE[0] != MSG_BAD_PAYMENT_METHOD[0];
    }
  }

  /** An accepted order is consistently priced and its payment settles it. */
  lemma PlacedConsistent(req: OrderRequest, menu: seq<MenuItem>, promos: seq<Promo>, stamps: Stamps)
    requires PlaceOrder(req, menu, promos, stamps).Ok?
    ensures var r := PlaceOrder(req, menu, promos, stamps);
      r.code == 201 && WellPriced(r.body.order) && Settles(r.body.order, r.body.payment)
  {
    var items := req.items.value;
    var pm := PAYMENT_METHODS[MethodIndex(req.paymentMethodId.value).value];
    var lines := ResolveLines(items, menu).value;
    forall i | 0 <= i < |lines|
      ensures lines[i].qty != 0 && lines[i].lineTotal == lines[i].item.price * lines[i].qty
    {
      assert lines[i] == Snapshot(menu[MenuIndex(menu, items[i].menuId).value], items[i].qty);
    }
    assert PricedLines(lines);
    AssembledConsistent(req, pm, lines, Discount(SumTotals(lines), promos, req.promoCode), stamps);
  }

  /** Records assembled from priced lines are consistent whatever the discount. */
  lemma AssembledConsistent(req: OrderRequest, pm: PaymentMethod, lines: seq<OrderLine>, discount: int, stamps: Stamps)
    requires Complete(req) && PricedLines(lines)
    ensures var p := Assemble(req, pm, lines, SumTotals(lines), discount, stamps);
      WellPriced(p.order) && Settles(p.order, p.payment)
  {
    AssembledFigures(req, pm, lines, SumTotals(lines), discount, stamps);
  }

  /** The figures `Assemble` writes into the order and its payment. */
  lemma AssembledFigures(req: OrderRequest, pm: PaymentMethod, lines: seq<OrderLine>, subtotal: int, discount: int, stamps: Stamps)
    requires Complete(req)
    ensures var p := Assemble(req, pm, lines, subtotal, discount, stamps);
      && p.order.items == lines && p.order.paymentMethod == pm
      && p.order.subtotal == subtotal && p.order.fee == pm.fee
      && p.order.discount == discount
      && p.order.total == subtotal - p.order.discount + pm.fee
      && p.order.deliveryAddress == (if Present(req.deliveryAddress) then req.deliveryAddress.value else PICKUP)
      && p.order.promoCode == (if Present(req.promoCode) then req.promoCode else None)
      && p.payment.amount == p.order.total && p.payment.status == (if pm.instant then Paid else Pending)
      && Settles(p.order, p.payment)
  {
  }

  /** On success: the method snapshot and its fee, the subtotal as the sum of the
      lines, the promo rule's discount, and `total == subtotal - discount + fee`. */
  lemma PlacedFigures(req: OrderRequest, menu: seq<MenuItem>, promos: seq<Promo>, stamps: Stamps)
    requires PlaceOrder(req, menu, promos, stamps).Ok?
    ensures Complete(req) && MethodIndex(req.paymentMethodId.value).Some?
    ensures var o := PlaceOrder(req, menu, promos, stamps).body.order;
      && o.paymentMethod == PAYMENT_METHODS[MethodIndex(req.paymentMethodId.value).value]
      && o.fee == o.paymentMethod.fee
      && o.subtotal == SumTotals(o.items)
      && o.discount == Discount(o.subtotal, promos, req.promoCode)
      && o.total == o.subtotal - o.discount + o.fee
  {
  }

  /** On success there is one stored line per cart line, in order, each a
      snapshot of the first menu item with that id, with the line's quantity
      (absent or zero read as one) and `lineTotal == price * qty`. */
  lemma PlacedLines(req: OrderRequest, menu: seq<MenuItem>, promos: seq<Promo>, stamps: Stamps)
    requires PlaceOrder(req, menu, promos, stamps).Ok?
    ensures req.items.Some?
    ensures var o := PlaceOrder(req, menu, promos, stamps).body.order;
      && |o.items| == |req.items.value|
      && forall i :: 0 <= i < |o.items| ==>
           && MenuIndex(menu, req.items.value[i].menuId).Some?
           && o.items[i].item == menu[MenuIndex(menu, req.items.value[i].menuId).value]
           && o.items[i].qty == Quantity(req.items.value[i].qty)
           && o.items[i].lineTotal == o.items[i].item.price * o.items[i].qty
  {
  }

  /** On success the order starts awaiting confirmation, with the pickup address
      and no promo code by default, and its payment carries the order's id and
      total and is paid exactly when the method settles instantly. */
  lemma PlacedRecords(req: OrderRequest, menu: seq<MenuItem>, promos: seq<Promo>, stamps: Stamps)
    requires PlaceOrder(req, menu, promos, stamps).Ok?
    ensures Complete(req)
    ensures var o := PlaceOrder(req, menu, promos, stamps).body.order;
      var p := PlaceOrder(req, menu, promos, stamps).body.payment;
      && o.id == stamps.orderId && o.createdAt == stamps.orderTime
      && o.customerName == req.customerName.value && o.customerPhone == req.customerPhone.value
      && o.status == AWAITING_CONFIRMATION
      && o.deliveryAddress == (if Present(req.deliveryAddress) then req.deliveryAddress.value else PICKUP)
      && o.promoCode == (if Present(req.promoCode) then req.promoCode else None)
      && p.id == stamps.paymentId && p.timestamp == stamps.paymentTime
      && p.orderId == o.id && p.amount == o.total && p.methodName == o.paymentMethod.name
      && (p.status == Paid <==> o.paymentMethod.instant)
  {
  }

  /** A promo code never decides whether an order is accepted: an unknown or
      inactive code is no error. */
  lemma PromoNeverRejects(req: OrderRequest, menu: seq<MenuItem>, promos: seq<Promo>, stamps: Stamps, code: Option<string>)
    ensures PlaceOrder(req, menu, promos, stamps).Ok? <==> PlaceOrder(req.(promoCode := code), menu, promos, stamps).Ok?
  {
  }

  /** Identifiers and clock readings do not influence the price: two
      computations from the same request and snapshots agree on every figure. */
  lemma PricingIgnoresStamps(req: OrderRequest, menu: seq<MenuItem>, promos: seq<Promo>, s1: Stamps, s2: Stamps)
    ensures PlaceOrder(req, menu, promos, s1).Ok? <==> PlaceOrder(req, menu, promos, s2).Ok?
    ensures PlaceOrder(req, menu, promos, s1).Ok? ==>
      var o1 := PlaceOrder(req, menu, promos, s1).body.order;
      var o2 := PlaceOrder(req, menu, promos, s2).body.order;
      o1.items == o2.items && o1.subtotal == o2.subtotal && o1.discount == o2.discount &&
      o1.fee == o2.fee && o1.total == o2.total
  {
  }

  /** With non-negative prices, non-negative requested quantities and promo
      percentages between 0 and 100, the discount lies between 0 and the subtotal,
      so the total is never below the method's fee. */
  lemma PlacedDiscountBounded(req: OrderRequest, menu: seq<MenuItem>, promos: seq<Promo>, stamps: Stamps)
    requires PlaceOrder(req, menu, promos, stamps).Ok?
    requires forall k :: 0 <= k < |menu| ==> menu[k].price >= 0
    requires forall i :: 0 <= i < |req.items.value| && req.items.value[i].qty.Some? ==> req.items.value[i].qty.value >= 0
    requires forall k :: 0 <= k < |promos| ==> 0 <= promos[k].discountPercent <= 100
    ensures var o := PlaceOrder(req, menu, promos, stamps).body.order;
      0 <= o.discount <= o.subtotal && o.total >= o.fee
  {
    PlacedLines(req, menu, promos, stamps);
    PlacedFigures(req, menu, promos, stamps);
    var o := PlaceOrder(req, menu, promos, stamps).body.order;
    forall i | 0 <= i < |o.items|
      ensures o.items[i].item.price >= 0 && o.items[i].qty >= 1
    {
      assert o.items[i].item == menu[MenuIndex(menu, req.items.value[i].menuId).value];
    }
    SumTotalsNonNegative(o.items);
    DiscountBounds(o.subtotal, promos, req.promoCode);
  }
}

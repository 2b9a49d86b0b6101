/** Orders against the menu, promos and payment methods the server starts
    with: two Nasi Uduk Betawi (m1, 22000 each) paid in various ways. */
module Scenarios {
  import opened Wrappers
  import opened Records
  import opened Checkout

  /** A customer's name and phone, both filled in. */
  datatype Customer = Customer(name: string, phone: string)

  predicate Filled(c: Customer) {
    c.name != "" && c.phone != ""
  }

  /** A complete request for two m1 with the given method and promo code. */
  function TwoNasiUduk(c: Customer, methodId: string, promoCode: Option<string>): OrderRequest {
    OrderRequest(
      Some(c.name), Some(c.phone), None,
      Some([RequestLine("m1", Some(2))]),
      Some(methodId), promoCode)
  }

  /** The cart line of two m1 resolves to one line worth 44000. */
  lemma TwoNasiUdukLines()
    ensures ResolveLines([RequestLine("m1", Some(2))], SEED_MENU) == Success([OrderLine(SEED_MENU[0], 2, 44000)])
    ensures SumTotals([OrderLine(SEED_MENU[0], 2, 44000)]) == 44000
  {
    var items := [RequestLine("m1", Some(2))];
    assert MenuIndex(SEED_MENU, "m1") == Some(0);
    assert items[1..] == [];
    assert ResolveLines(items[1..], SEED_MENU) == Success([]);
    assert Snapshot(SEED_MENU[0], Some(2)) == OrderLine(SEED_MENU[0], 2, 44000);
    assert ResolveLines(items, SEED_MENU) == Success([Snapshot(SEED_MENU[0], Some(2))] + []);
    assert [OrderLine(SEED_MENU[0], 2, 44000)] + [] == [OrderLine(SEED_MENU[0], 2, 44000)];
  }

  /** The method table's entries by id. */
  lemma MethodsById()
    ensures MethodIndex("qris") == Some(0) && MethodIndex("gopay") == Some(1)
    ensures MethodIndex("va_bca") == Some(4)
  {
  }

  /** A complete request with a known method whose lines all resolve is
      answered with the records `Assemble` builds from the lines' sum. */
  lemma Accepted(req: OrderRequest, menu: seq<MenuItem>, m: nat, lines: seq<OrderLine>, subtotal: int, stamps: Stamps)
    requires Complete(req) && MethodIndex(req.paymentMethodId.value) == Some(m)
    requires ResolveLines(req.items.value, menu) == Success(lines) && SumTotals(lines) == subtotal
    ensures m < |PAYMENT_METHODS|
    ensures PlaceOrder(req, menu, SEED_PROMOS, stamps) ==
      Ok(201, Assemble(req, PAYMENT_METHODS[m], lines, subtotal, Discount(subtotal, SEED_PROMOS, req.promoCode), stamps))
  {
  }

  /** A complete request with a known method and a line that is not on the
      menu is refused with 500 and the thrown message. */
  lemma RefusedUnknownLine(req: OrderRequest, menu: seq<MenuItem>, id: string, stamps: Stamps)
    requires Complete(req) && MethodIndex(req.paymentMethodId.value).Some?
    requires ResolveLines(req.items.value, menu) == Failure(id)
    ensures PlaceOrder(req, menu, SEED_PROMOS, stamps) == Fail(500, MissingMenuMessage(id))
  {
  }

  /** The promos by code: BETAWI10 is the first; the lower-case spelling is none. */
  lemma PromosByCode()
    ensures PromoIndex(SEED_PROMOS, "BETAWI10") == Some(0)
    ensures PromoIndex(SEED_PROMOS, "betawi10") == None
  {
  }

  /** The discount on 44000 for no code, BETAWI10 and the lower-case spelling. */
  lemma DiscountsOn44000()
    ensures Discount(44000, SEED_PROMOS, None) == 0
    ensures Discount(44000, SEED_PROMOS, Some("BETAWI10")) == 4400
    ensures Discount(44000, SEED_PROMOS, Some("betawi10")) == 0
  {
    PromosByCode();
  }

  /** The request for two m1 with a known method is accepted with the
      records built from one line worth 44000 and the promo rule's discount. */
  lemma TwoNasiUdukAccepted(c: Customer, stamps: Stamps, methodId: string, m: nat, promoCode: Option<string>)
    requires Filled(c)
    requires MethodIndex(methodId) == Some(m)
    ensures m < |PAYMENT_METHODS|
    ensures PlaceOrder(TwoNasiUduk(c, methodId, promoCode), SEED_MENU, SEED_PROMOS, stamps) ==
      Ok(201, Assemble(TwoNasiUduk(c, methodId, promoCode), PAYMENT_METHODS[m], [OrderLine(SEED_MENU[0], 2, 44000)],
        44000, Discount(44000, SEED_PROMOS, promoCode), stamps))
  {
    var req := TwoNasiUduk(c, methodId, promoCode);
    assert Complete(req) && req.items.value == [RequestLine("m1", Some(2))];
    TwoNasiUdukLines();
    Accepted(req, SEED_MENU, m, [OrderLine(SEED_MENU[0], 2, 44000)], 44000, stamps);
  }

  /** The accepted order for two m1: subtotal 44000, the promo rule's
      discount, the method's fee, pickup by default, and a payment for the
      total that is paid when the method is instant. */
  lemma TwoNasiUdukPlaced(c: Customer, stamps: Stamps, methodId: string, m: nat, promoCode: Option<string>)
    requires Filled(c)
    requires MethodIndex(methodId) == Some(m)
    ensures m < |PAYMENT_METHODS|
    ensures var r := PlaceOrder(TwoNasiUduk(c, methodId, promoCode), SEED_MENU, SEED_PROMOS, stamps);
      var pm := PAYMENT_METHODS[m];
      && r.Ok? && r.code == 201
      && r.body.order.subtotal == 44000
      && r.body.order.discount == Discount(44000, SEED_PROMOS, promoCode)
      && r.body.order.fee == pm.fee
      && r.body.order.total == 44000 - r.body.order.discount + pm.fee
      && r.body.order.deliveryAddress == PICKUP
      && r.body.order.promoCode == (if Present(promoCode) then promoCode else None)
      && r.body.payment.amount == r.body.order.total
      && r.body.payment.status == (if pm.instant then Paid else Pending)
  {
    TwoNasiUdukAccepted(c, stamps, methodId, m, promoCode);
    AssembledFigures(TwoNasiUduk(c, methodId, promoCode), PAYMENT_METHODS[m], [OrderLine(SEED_MENU[0], 2, 44000)],
      44000, Discount(44000, SEED_PROMOS, promoCode), stamps);
  }

  /** QRIS has no fee and no promo is given: subtotal 44000, total 44000, paid at once, picked up. */
  lemma PlainQrisOrder(c: Customer, stamps: Stamps)
    requires Filled(c)
    ensures var r := PlaceOrder(TwoNasiUduk(c, "qris", None), SEED_MENU, SEED_PROMOS, stamps);
      && r.Ok? && r.code == 201
      && r.body.order.subtotal == 44000 && r.body.order.discount == 0
      && r.body.order.fee == 0 && r.body.order.total == 44000
      && r.body.order.deliveryAddress == PICKUP && r.body.order.promoCode == None
      && r.body.payment.status == Paid && r.body.payment.amount == 44000
  {
    MethodsById();
    TwoNasiUdukPlaced(c, stamps, "qris", 0, None);
    DiscountsOn44000();
    assert PAYMENT_METHODS[0].fee == 0 && PAYMENT_METHODS[0].instant;
  }

  /** BETAWI10 takes floor(44000 * 10 / 100) = 4400 off. */
  lemma PromoOrder(c: Customer, stamps: Stamps)
    requires Filled(c)
    ensures var r := PlaceOrder(TwoNasiUduk(c, "qris", Some("BETAWI10")), SEED_MENU, SEED_PROMOS, stamps);
      && r.Ok? && r.body.order.discount == 4400 && r.body.order.total == 39600
      && r.body.order.promoCode == Some("BETAWI10")
  {
    MethodsById();
    TwoNasiUdukPlaced(c, stamps, "qris", 0, Some("BETAWI10"));
    DiscountsOn44000();
  }

  /** GoPay adds its fee of 1500 to the subtotal. */
  lemma FeeOrder(c: Customer, stamps: Stamps)
    requires Filled(c)
    ensures var r := PlaceOrder(TwoNasiUduk(c, "gopay", None), SEED_MENU, SEED_PROMOS, stamps);
      && r.Ok? && r.body.order.fee == 1500 && r.body.order.total == 45500
  {
    MethodsById();
    TwoNasiUdukPlaced(c, stamps, "gopay", 1, None);
    DiscountsOn44000();
  }

  /** A code no promo has, or one in the wrong case, gives no discount and no error. */
  lemma UnknownPromoOrder(c: Customer, stamps: Stamps)
    requires Filled(c)
    ensures var r := PlaceOrder(TwoNasiUduk(c, "qris", Some("betawi10")), SEED_MENU, SEED_PROMOS, stamps);
      && r.Ok? && r.body.order.discount == 0 && r.body.order.total == 44000
  {
    MethodsById();
    TwoNasiUdukPlaced(c, stamps, "qris", 0, Some("betawi10"));
    DiscountsOn44000();
  }

  /** A virtual account is not instant: the payment stays pending. */
  lemma PendingOrder(c: Customer, stamps: Stamps)
    requires Filled(c)
    ensures var r := PlaceOrder(TwoNasiUduk(c, "va_bca", None), SEED_MENU, SEED_PROMOS, stamps);
      && r.Ok? && r.body.order.total == 46500 && r.body.payment.status == Pending
  {
    MethodsById();
    TwoNasiUdukPlaced(c, stamps, "va_bca", 4, None);
    DiscountsOn44000();
  }

  /** Two m1 and one m9, paid by QRIS. */
  function WithUnknownLine(c: Customer): OrderRequest {
    OrderRequest(
      Some(c.name), Some(c.phone), None,
      Some([RequestLine("m1", Some(2)), RequestLine("m9", None)]),
      Some("qris"), None)
  }

  /** m1 is the first dish on the menu; m9 is not on it. */
  lemma MenuById()
    ensures MenuIndex(SEED_MENU, "m1") == Some(0)
    ensures MenuIndex(SEED_MENU, "m9") == None
  {
    var ids := ["m1", "m2", "m3", "m4", "m5", "m6"];
    assert forall j :: 0 <= j < |SEED_MENU| ==> SEED_MENU[j].id == ids[j];
    assert forall j :: 0 <= j < |ids| ==> ids[j] != "m9";
  }

  /** Resolution stops at m9, the first line not on the menu. */
  lemma UnknownMenuLines()
    ensures ResolveLines([RequestLine("m1", Some(2)), RequestLine("m9", None)], SEED_MENU) == Failure("m9")
  {
    var items := [RequestLine("m1", Some(2)), RequestLine("m9", None)];
    MenuById();
    var tail := items[1..];
    assert tail == [RequestLine("m9", None)] && tail[0].menuId == "m9";
    assert ResolveLines(tail, SEED_MENU) == Failure("m9");
    assert items[0].menuId == "m1";
  }

  lemma M9Message()
    ensures MissingMenuMessage("m9") == "Menu m9 tidak ditemukan"
  {
  }

  /** A line naming m9, which is not on the menu, sinks the whole order with 500. */
  lemma UnknownMenuOrder(c: Customer, stamps: Stamps)
    requires Filled(c)
    ensures PlaceOrder(WithUnknownLine(c), SEED_MENU, SEED_PROMOS, stamps) == Fail(500, "Menu m9 tidak ditemukan")
  {
    var req := WithUnknownLine(c);
    assert Complete(req) && req.items.value == [RequestLine("m1", Some(2)), RequestLine("m9", None)];
    MethodsById();
    UnknownMenuLines();
    RefusedUnknownLine(req, SEED_MENU, "m9", stamps);
    M9Message();
  }

  /** No method in the table is called paypal. */
  lemma PaypalUnlisted()
    ensures MethodIndex("paypal") == None
  {
    var ids := ["qris", "gopay", "ovo", "dana", "va_bca", "va_bni", "cod", "card"];
    assert forall j :: 0 <= j < |PAYMENT_METHODS| ==> PAYMENT_METHODS[j].id == ids[j];
    assert forall j :: 0 <= j < |ids| ==> ids[j] != "paypal";
  }

  /** A complete request naming a method the table does not list is refused with 400. */
  lemma RefusedMethod(req: OrderRequest, menu: seq<MenuItem>, stamps: Stamps)
    requires Complete(req) && MethodIndex(req.paymentMethodId.value) == None
    ensures PlaceOrder(req, menu, SEED_PROMOS, stamps) == Fail(400, MSG_BAD_PAYMENT_METHOD)
  {
  }

  /** A payment method the table does not list is refused with 400. */
  lemma UnknownMethodOrder(c: Customer, stamps: Stamps)
    requires Filled(c)
    ensures PlaceOrder(TwoNasiUduk(c, "paypal", None), SEED_MENU, SEED_PROMOS, stamps) ==
      Fail(400, MSG_BAD_PAYMENT_METHOD)
  {
    var req := TwoNasiUduk(c, "paypal", None);
    assert Complete(req) && req.paymentMethodId.value == "paypal";
    PaypalUnlisted();
    RefusedMethod(req, SEED_MENU, stamps);
  }
}

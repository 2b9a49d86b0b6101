/** The browser side (public/app.js): the page `state` with the fetched menu
    and payment methods and the cart, `addToCart`, the subtotal that
    `renderCart` shows, and the order form's submit handler up to the request
    it sends. */
module Client {
  import opened Wrappers
  import opened Lookup
  import opened Records
  import Checkout

  /** One cart entry, `{ menuId, qty }`. */
  datatype CartLine = CartLine(menuId: string, qty: int)

  /** The order form's fields, as `FormData.get` returns them. */
  datatype OrderForm = OrderForm(
    customerName: string, customerPhone: string, deliveryAddress: string,
    promoCode: string, paymentMethodId: string)

  /** What `renderCart` shows: the empty-cart text with subtotal 0, the line
      totals and their sum, or nothing because a line's menu item is missing
      and `menu.price` throws. */
  datatype CartView = EmptyCart(subtotal: int) | Priced(lineTotals: seq<int>, subtotal: int) | Crashed(menuId: string)

  /** What the submit handler does: show a message and send nothing, or post the payload. */
  datatype Submission = NoItems(message: string) | Send(payload: OrderRequest)

  const EMPTY_CART_MESSAGE := "Tambahkan menu dulu ke keranjang."

  /** `state.cart.find((item) => item.menuId === menuId)`, as an index. */
  function LineIndex(cart: seq<CartLine>, menuId: string): (r: Option<nat>)
    ensures r.Some? ==> r.value < |cart| && cart[r.value].menuId == menuId
    ensures r.Some? ==> forall j :: 0 <= j < r.value ==> cart[j].menuId != menuId
    ensures r.None? <==> forall j :: 0 <= j < |cart| ==> cart[j].menuId != menuId
  {
    FirstIndex(cart, (l: CartLine) => l.menuId == menuId)
  }

  /** Each menu id appears at most once in the cart. */
  predicate DistinctIds(cart: seq<CartLine>) {
    forall i, j :: 0 <= i < j < |cart| ==> cart[i].menuId != cart[j].menuId
  }

  /** The number of items in the cart, counting quantities. */
  function ItemCount(cart: seq<CartLine>): int {
    if cart == [] then 0 else cart[0].qty + ItemCount(cart[1..])
  }

  lemma {:induction false} ItemCountAppend(a: seq<CartLine>, b: seq<CartLine>)
    ensures ItemCount(a + b) == ItemCount(a) + ItemCount(b)
  {
    if a == [] {
      assert a + b == b;
    } else {
      assert (a + b)[1..] == a[1..] + b;
      ItemCountAppend(a[1..], b);
    }
  }

  /** Raising one line's quantity by one raises the item count by one. */
  lemma ItemCountBump(cart: seq<CartLine>, k: nat)
    requires k < |cart|
    ensures ItemCount(cart[k := cart[k].(qty := cart[k].qty + 1)]) == ItemCount(cart) + 1
  {
    var l := cart[k];
    var l' := l.(qty := l.qty + 1);
    assert cart == cart[..k] + [l] + cart[k + 1..];
    assert cart[k := l'] == cart[..k] + [l'] + cart[k + 1..];
    ItemCountAppend(cart[..k] + [l], cart[k + 1..]);
    ItemCountAppend(cart[..k], [l]);
    ItemCountAppend(cart[..k] + [l'], cart[k + 1..]);
    ItemCountAppend(cart[..k], [l']);
    assert [l][1..] == [] && [l'][1..] == [];
  }

  /** Line `i` is the first cart line whose menu item is missing. */
  predicate FirstUnpriced(cart: seq<CartLine>, menu: seq<MenuItem>, i: nat)
    requires i < |cart|
  {
    && Checkout.MenuIndex(menu, cart[i].menuId).None?
    && forall j :: 0 <= j < i ==> Checkout.MenuIndex(menu, cart[j].menuId).Some?
  }

  /** The line totals `menu.price * cart.qty` of `renderCart`, or the menu id of
      the first line whose menu item is missing. */
  function LineTotals(cart: seq<CartLine>, menu: seq<MenuItem>): (r: Result<seq<int>, string>)
    ensures r.Success? <==> forall i :: 0 <= i < |cart| ==> Checkout.MenuIndex(menu, cart[i].menuId).Some?
    ensures r.Success? ==> |r.value| == |cart| && forall i :: 0 <= i < |cart| ==>
      Checkout.MenuIndex(menu, cart[i].menuId).Some? &&
      r.value[i] == menu[Checkout.MenuIndex(menu, cart[i].menuId).value].price * cart[i].qty
    ensures r.Failure? ==>
      (exists i :: 0 <= i < |cart| && r.error == cart[i].menuId && FirstUnpriced(cart, menu, i))
  {
    if cart == [] then Success([])
    else match Checkout.MenuIndex(menu, cart[0].menuId)
      case None =>
        assert FirstUnpriced(cart, menu, 0);
        Failure(cart[0].menuId)
      case Some(k) =>
        match LineTotals(cart[1..], menu)
        case Failure(id) =>
          var i :| 0 <= i < |cart[1..]| && id == cart[1..][i].menuId && FirstUnpriced(cart[1..], menu, i);
          assert FirstUnpriced(cart, menu, i + 1);
          Failure(id)
        case Success(rest) => Success([menu[k].price * cart[0].qty] + rest)
  }

  function Sum(xs: seq<int>): int {
    if xs == [] then 0 else xs[0] + Sum(xs[1..])
  }

  lemma {:induction false} SumSnoc(xs: seq<int>, x: int)
    ensures Sum(xs + [x]) == Sum(xs) + x
  {
    if xs == [] {
      assert xs + [x] == [x];
      assert [x][1..] == [];
    } else {
      assert (xs + [x])[1..] == xs[1..] + [x];
      SumSnoc(xs[1..], x);
    }
  }

  /** The cart as `renderCart` prices it. */
  function CartSummary(cart: seq<CartLine>, menu: seq<MenuItem>): (v: CartView)
    ensures v.EmptyCart? <==> cart == []
    ensures v.EmptyCart? ==> v.subtotal == 0
    ensures v.Crashed? <==> cart != [] && exists i :: 0 <= i < |cart| && FirstUnpriced(cart, menu, i)
    ensures v.Crashed? ==> exists i :: 0 <= i < |cart| && FirstUnpriced(cart, menu, i) && v.menuId == cart[i].menuId
    ensures v.Priced? ==> |v.lineTotals| == |cart| && v.subtotal == Sum(v.lineTotals)
    ensures v.Priced? ==> v.lineTotals == LineTotals(cart, menu).value
    ensures v.Priced? ==> forall i :: 0 <= i < |cart| ==>
      Checkout.MenuIndex(menu, cart[i].menuId).Some? &&
      v.lineTotals[i] == menu[Checkout.MenuIndex(menu, cart[i].menuId).value].price * cart[i].qty
  {
    if cart == [] then EmptyCart(0)
    else match LineTotals(cart, menu)
      case Failure(id) => Crashed(id)
      case Success(ts) => Priced(ts, Sum(ts))
  }

  /** `items: state.cart` as the server reads it: every quantity present. */
  function AsRequestLines(cart: seq<CartLine>): (items: seq<RequestLine>)
    ensures |items| == |cart|
    ensures forall i :: 0 <= i < |cart| ==> items[i] == RequestLine(cart[i].menuId, Some(cart[i].qty))
  {
    if cart == [] then [] else [RequestLine(cart[0].menuId, Some(cart[0].qty))] + AsRequestLines(cart[1..])
  }

  /** The payload of the submit handler. */
  function Payload(cart: seq<CartLine>, form: OrderForm): OrderRequest {
    OrderRequest(
      Some(form.customerName), Some(form.customerPhone), Some(form.deliveryAddress),
      Some(AsRequestLines(cart)), Some(form.paymentMethodId),
      if form.promoCode != "" then Some(form.promoCode) else None)
  }

  /** For a cart of positive quantities whose lines are all on the menu, the
      server resolves the posted items against the same menu and arrives at the
      subtotal the page showed. */
  lemma {:induction false} SubtotalMatchesServer(cart: seq<CartLine>, menu: seq<MenuItem>)
    requires forall i :: 0 <= i < |cart| ==> cart[i].qty >= 1
    requires LineTotals(cart, menu).Success?
    ensures Checkout.ResolveLines(AsRequestLines(cart), menu).Success?
    ensures Checkout.SumTotals(Checkout.ResolveLines(AsRequestLines(cart), menu).value) ==
      Sum(LineTotals(cart, menu).value)
  {
    var items := AsRequestLines(cart);
    if cart != [] {
      assert items[1..] == AsRequestLines(cart[1..]);
      SubtotalMatchesServer(cart[1..], menu);
      assert Checkout.Quantity(items[0].qty) == cart[0].qty;
    }
  }

  /** The page `state`. */
  class Page {
    var menu: seq<MenuItem>
    var paymentMethods: seq<PaymentMethod>
    var cart: seq<CartLine>

    /** Every menu id once in the cart, each with a positive quantity. */
    ghost predicate Valid()
      reads this
    {
      DistinctIds(cart) && forall i :: 0 <= i < |cart| ==> cart[i].qty >= 1
    }

    constructor ()
      ensures Valid() && menu == [] && paymentMethods == [] && cart == []
    {
      menu, paymentMethods, cart := [], [], [];
    }

    /** `addToCart`: a line already holding `menuId` gets one more; otherwise
        `{ menuId, qty: 1 }` is appended. Every other line stays as it was. */
    method AddToCart(menuId: string)
      requires Valid()
      modifies this`cart
      ensures Valid()
      ensures LineIndex(old(cart), menuId).Some? ==>
        var k := LineIndex(old(cart), menuId).value;
        cart == old(cart)[k := old(cart)[k].(qty := old(cart)[k].qty + 1)]
      ensures LineIndex(old(cart), menuId).None? ==> cart == old(cart) + [CartLine(menuId, 1)]
      ensures ItemCount(cart) == old(ItemCount(cart)) + 1
    {
      var existing := LineIndex(cart, menuId);
      if existing.Some? {
        var k := existing.value;
        ItemCountBump(cart, k);
        cart := cart[k := cart[k].(qty := cart[k].qty + 1)];
      } else {
        ItemCountAppend(cart, [CartLine(menuId, 1)]);
        assert [CartLine(menuId, 1)][1..] == [];
        cart := cart + [CartLine(menuId, 1)];
      }
    }

    /** The figures `renderCart` writes: nothing to add up for an empty cart,
        otherwise each line's `menu.price * cart.qty` accumulated into the
        subtotal, stopping where a menu item is missing. */
    method RenderCart() returns (view: CartView)
      ensures view == CartSummary(cart, menu)
      ensures view.Priced? ==> |view.lineTotals| == |cart| && view.subtotal == Sum(view.lineTotals)
    {
      if |cart| == 0 {
        return EmptyCart(0);
      }
      var subtotal := 0;
      var totals: seq<int> := [];
      var i := 0;
      while i < |cart|
        invariant 0 <= i <= |cart| && |totals| == i
        invariant forall j :: 0 <= j < i ==>
          Checkout.MenuIndex(menu, cart[j].menuId).Some? &&
          totals[j] == menu[Checkout.MenuIndex(menu, cart[j].menuId).value].price * cart[j].qty
        invariant subtotal == Sum(totals)
      {
        var k := Checkout.MenuIndex(menu, cart[i].menuId);
        if k.None? {
          assert FirstUnpriced(cart, menu, i);
          return Crashed(cart[i].menuId);
        }
        var total := menu[k.value].price * cart[i].qty;
        SumSnoc(totals, total);
        subtotal := subtotal + total;
        totals := totals + [total];
        i := i + 1;
      }
      assert LineTotals(cart, menu).value == totals;
      view := Priced(totals, subtotal);
    }

    /** The submit handler: with an empty cart it only shows a message;
        otherwise it posts the form fields and the cart. */
    function Submit(form: OrderForm): (s: Submission)
      reads this
      ensures cart == [] <==> s == NoItems(EMPTY_CART_MESSAGE)
      ensures s.Send? <==> cart != []
      ensures s.Send? ==> s.payload.items == Some(AsRequestLines(cart)) && |s.payload.items.value| == |cart|
      ensures s.Send? ==>
        && s.payload.customerName == Some(form.customerName)
        && s.payload.customerPhone == Some(form.customerPhone)
        && s.payload.deliveryAddress == Some(form.deliveryAddress)
        && s.payload.paymentMethodId == Some(form.paymentMethodId)
        && s.payload.promoCode == (if form.promoCode != "" then Some(form.promoCode) else None)
    {
      if |cart| == 0 then NoItems(EMPTY_CART_MESSAGE) else Send(Payload(cart, form))
    }

    /** After the server accepts the order the cart is emptied. */
    method OrderAccepted()
      modifies this`cart
      ensures Valid() && cart == []
    {
      cart := [];
    }
  }

  /** A request the page sends always carries a non-empty array of items, so
      the server refuses it as incomplete exactly when a customer field or the
      payment method is left blank. */
  lemma SentOrdersHaveItems(cart: seq<CartLine>, form: OrderForm)
    requires cart != []
    ensures Checkout.Complete(Payload(cart, form)) <==>
      form.customerName != "" && form.customerPhone != "" && form.paymentMethodId != ""
  {
  }
}

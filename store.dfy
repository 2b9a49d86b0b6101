/** The server's in-memory `db` and the routes that change it. Each route is a
    method on the store; HTTP parsing and writing are not modelled, so a route
    takes its already-parsed body and returns its reply. */
module Server {
  import opened Wrappers
  import opened Lookup
  import opened Records
  import opened Checkout
  import Dashboard

  /** `new Item(...)` of `POST /api/menu`: `Number(stock || 0)`,
      `Number(spicyLevel || 0)`, `Boolean(featured)`. */
  function NewMenuItem(body: MenuRequest, id: string): MenuItem
    requires Present(body.name) && Present(body.category) && body.price.Some?
  {
    MenuItem(
      id, body.name.value, body.category.value, body.price.value,
      if body.stock.Some? then body.stock.value else 0,
      if body.spicyLevel.Some? then body.spicyLevel.value else 0,
      body.featured.Some? && body.featured.value)
  }

  /** `{ ...item, ...body }`: every field the body carries overrides the stored one. */
  function Overlay(item: MenuItem, body: MenuPatch): MenuItem
  {
    MenuItem(
      if body.id.Some? then body.id.value else item.id,
      if body.name.Some? then body.name.value else item.name,
      if body.category.Some? then body.category.value else item.category,
      if body.price.Some? then body.price.value else item.price,
      if body.stock.Some? then body.stock.value else item.stock,
      if body.spicyLevel.Some? then body.spicyLevel.value else item.spicyLevel,
      if body.featured.Some? then body.featured.value else item.featured)
  }

  /** A body with no fields leaves the item as it was. */
  lemma OverlayEmpty(item: MenuItem)
    ensures Overlay(item, MenuPatch(None, None, None, None, None, None, None)) == item
  {
  }

  /** Sending the same body twice has the effect of sending it once. */
  lemma OverlayIdempotent(item: MenuItem, body: MenuPatch)
    ensures Overlay(Overlay(item, body), body) == Overlay(item, body)
  {
  }

  /** Of two bodies sent in turn, the later one's fields win where both carry one. */
  lemma OverlayLaterWins(item: MenuItem, first: MenuPatch, second: MenuPatch)
    ensures second.price.Some? ==> Overlay(Overlay(item, first), second).price == second.price.value
    ensures second.price.None? ==> Overlay(Overlay(item, first), second).price == Overlay(item, first).price
    ensures Overlay(Overlay(item, first), second).id ==
      (if second.id.Some? then second.id.value else if first.id.Some? then first.id.value else item.id)
  {
  }

  /** `db.users.find((u) => u.email === email)`, as an index. */
  function UserIndex(users: seq<User>, email: string): (r: Option<nat>)
    ensures r.Some? ==> r.value < |users| && users[r.value].email == email
    ensures r.Some? ==> forall j :: 0 <= j < r.value ==> users[j].email != email
    ensures r.None? <==> forall j :: 0 <= j < |users| ==> users[j].email != email
  {
    FirstIndex(users, (u: User) => u.email == email)
  }

  /** `db.orders.find((o) => o.id === id)`, as an index. */
  function OrderIndex(orders: seq<Order>, id: string): (r: Option<nat>)
    ensures r.Some? ==> r.value < |orders| && orders[r.value].id == id
    ensures r.Some? ==> forall j :: 0 <= j < r.value ==> orders[j].id != id
    ensures r.None? <==> forall j :: 0 <= j < |orders| ==> orders[j].id != id
  {
    FirstIndex(orders, (o: Order) => o.id == id)
  }

  /** No two users share an e-mail address. */
  predicate DistinctEmails(users: seq<User>) {
    forall i, j :: 0 <= i < j < |users| ==> users[i].email != users[j].email
  }

  class Store {
    var users: seq<User>
    var menu: seq<MenuItem>
    var orders: seq<Order>
    var payments: seq<Payment>
    var promos: seq<Promo>
    var inventory: seq<InventoryItem>

    /** Orders and payments are created together: the i-th payment settles the
        i-th order, and every order is priced consistently. */
    ghost predicate Valid()
      reads this
    {
      Ledger(orders, payments)
    }

    /** The `db` the server starts with. */
    constructor ()
      ensures Valid()
      ensures users == SEED_USERS && menu == SEED_MENU && promos == SEED_PROMOS
      ensures inventory == SEED_INVENTORY && orders == [] && payments == []
    {
      users := SEED_USERS;
      menu := SEED_MENU;
      orders := [];
      payments := [];
      promos := SEED_PROMOS;
      inventory := SEED_INVENTORY;
    }

    /** `POST /api/menu`: a name, a category and a non-zero price are required;
        the new item, with the fresh id `newId`, is appended. */
    method CreateMenuItem(body: MenuRequest, newId: string) returns (r: Response<MenuItem>)
      modifies this`menu
      ensures !(Present(body.name) && Present(body.category) && body.price.Some? && body.price.value != 0) <==>
        r == Fail(400, MSG_MENU_FIELDS)
      ensures r.Ok? <==> Present(body.name) && Present(body.category) && body.price.Some? && body.price.value != 0
      ensures r.Fail? ==> menu == old(menu)
      ensures r.Ok? ==> r.code == 201 && r.body.id == newId && menu == old(menu) + [r.body]
      ensures r.Ok? ==> r.body == NewMenuItem(body, newId)
    {
      if !Present(body.name) || !Present(body.category) || body.price.None? || body.price.value == 0 {
        return Fail(400, MSG_MENU_FIELDS);
      }
      var item := NewMenuItem(body, newId);
      menu := menu + [item];
      r := Ok(201, item);
    }

    /** `PUT /api/menu/:id`: the first item with that id is replaced by itself
        overlaid with the body; every other item stays where it was. */
    method UpdateMenuItem(id: string, body: MenuPatch) returns (r: Response<MenuItem>)
      modifies this`menu
      ensures MenuIndex(old(menu), id).None? ==> r == Fail(404, MSG_MENU_NOT_FOUND) && menu == old(menu)
      ensures MenuIndex(old(menu), id).Some? ==>
        var k := MenuIndex(old(menu), id).value;
        && menu == old(menu)[k := Overlay(old(menu)[k], body)]
        && r == Ok(200, menu[k])
    {
      var idx := MenuIndex(menu, id);
      if idx.None? {
        return Fail(404, MSG_MENU_NOT_FOUND);
      }
      menu := menu[idx.value := Overlay(menu[idx.value], body)];
      r := Ok(200, menu[idx.value]);
    }

    /** `DELETE /api/menu/:id`: the first item with that id is spliced out and
        the others keep their order; 204 carries no body. */
    method DeleteMenuItem(id: string) returns (r: Response<()>)
      modifies this`menu
      ensures MenuIndex(old(menu), id).None? ==> r == Fail(404, MSG_MENU_NOT_FOUND) && menu == old(menu)
      ensures MenuIndex(old(menu), id).Some? ==>
        var k := MenuIndex(old(menu), id).value;
        && menu == old(menu)[..k] + old(menu)[k + 1..]
        && r == Ok(204, ())
    {
      var idx := MenuIndex(menu, id);
      if idx.None? {
        return Fail(404, MSG_MENU_NOT_FOUND);
      }
      menu := menu[..idx.value] + menu[idx.value + 1..];
      r := Ok(204, ());
    }

    /** `POST /api/auth/social-login`: provider, email and name are required and
        the provider must be google or facebook; the user with that email is
        found, or a new customer with the fresh id `newId` is appended. */
    method SocialLogin(body: LoginRequest, newId: string) returns (r: Response<Session>)
      modifies this`users
      ensures !(Present(body.provider) && Present(body.email) && Present(body.name)) ==>
        r == Fail(400, MSG_LOGIN_FIELDS) && users == old(users)
      ensures (Present(body.provider) && Present(body.email) && Present(body.name) &&
               body.provider.value !in ["google", "facebook"]) ==>
        r == Fail(400, MSG_PROVIDER) && users == old(users)
      ensures r.Ok? ==> r.code == 200 && r.body.user.email == body.email.value
      ensures r.Ok? ==> r.body.token == "demo-token-" + r.body.user.id && r.body.note == DEMO_NOTE
      ensures r.Ok? && UserIndex(old(users), body.email.value).Some? ==>
        users == old(users) && r.body.user == old(users)[UserIndex(old(users), body.email.value).value]
      ensures r.Ok? && UserIndex(old(users), body.email.value).None? ==>
        && r.body.user == User(newId, body.name.value, body.email.value, CUSTOMER_ROLE, body.provider.value)
        && users == old(users) + [r.body.user]
      ensures r.Ok? <==> (Present(body.provider) && Present(body.email) && Present(body.name) &&
                          body.provider.value in ["google", "facebook"])
      ensures DistinctEmails(old(users)) ==> DistinctEmails(users)
    {
      if !Present(body.provider) || !Present(body.email) || !Present(body.name) {
        return Fail(400, MSG_LOGIN_FIELDS);
      }
      if body.provider.value !in ["google", "facebook"] {
        return Fail(400, MSG_PROVIDER);
      }
      var found := UserIndex(users, body.email.value);
      var user: User;
      if found.Some? {
        user := users[found.value];
      } else {
        user := User(newId, body.name.value, body.email.value, CUSTOMER_ROLE, body.provider.value);
        users := users + [user];
      }
      r := Ok(200, Session("demo-token-" + user.id, user, DEMO_NOTE));
    }

    /** The `items.map` of `POST /api/orders` over the current menu: each line
        is looked up, snapshotted with its quantity and line total and added to
        the running subtotal; the first unknown menu id stops it (the handler
        throws there). */
    method PriceLines(items: seq<RequestLine>) returns (lines: seq<OrderLine>, subtotal: int, missing: Option<string>)
      ensures missing.None? ==> ResolveLines(items, menu) == Success(lines) && subtotal == SumTotals(lines)
      ensures missing.Some? ==> ResolveLines(items, menu) == Failure(missing.value)
    {
      subtotal, lines := 0, [];
      var i := 0;
      while i < |items|
        invariant 0 <= i <= |items| && |lines| == i
        invariant forall j :: 0 <= j < i ==>
          MenuIndex(menu, items[j].menuId).Some? &&
          lines[j] == Snapshot(menu[MenuIndex(menu, items[j].menuId).value], items[j].qty)
        invariant subtotal == SumTotals(lines)
      {
        var k := MenuIndex(menu, items[i].menuId);
        if k.None? {
          assert FirstMissing(items, menu, i);
          return lines, subtotal, Some(items[i].menuId);
        }
        var qty := Quantity(items[i].qty);
        var lineTotal := menu[k.value].price * qty;
        SumTotalsSnoc(lines, OrderLine(menu[k.value], qty, lineTotal));
        subtotal := subtotal + lineTotal;
        lines := lines + [OrderLine(menu[k.value], qty, lineTotal)];
        i := i + 1;
      }
      assert ResolveLines(items, menu).value == lines;
      missing := None;
    }

    /** `POST /api/orders`: the reply and records are those of
        `Checkout.PlaceOrder`; on success exactly one order and one payment are
        prepended, otherwise nothing changes. The menu and promos are only read. */
    method PlaceOrder(req: OrderRequest, stamps: Stamps) returns (r: Response<Placed>)
      requires Valid()
      modifies this`orders, this`payments
      ensures Valid()
      ensures r == Checkout.PlaceOrder(req, menu, promos, stamps)
      ensures r.Ok? ==> orders == [r.body.order] + old(orders) && payments == [r.body.payment] + old(payments)
      ensures r.Fail? ==> orders == old(orders) && payments == old(payments)
    {
      if !Present(req.customerName) || !Present(req.customerPhone) || req.items.None? ||
         |req.items.value| == 0 || !Present(req.paymentMethodId) {
        return Fail(400, MSG_ORDER_INCOMPLETE);
      }
      var m := MethodIndex(req.paymentMethodId.value);
      if m.None? {
        return Fail(400, MSG_BAD_PAYMENT_METHOD);
      }
      var pm := PAYMENT_METHODS[m.value];
      var lines, subtotal, missing := PriceLines(req.items.value);
      if missing.Some? {
        return Fail(500, MissingMenuMessage(missing.value));
      }
      var placed := Assemble(req, pm, lines, subtotal, Discount(subtotal, promos, req.promoCode), stamps);
      r := Ok(201, placed);
      PlacedConsistent(req, menu, promos, stamps);
      LedgerPrepend(placed.order, placed.payment, orders, payments);
      orders := [placed.order] + orders;
      payments := [placed.payment] + payments;
    }

    /** `PATCH /api/orders/:id/status`: only the first order with that id changes,
        and only its status, and only when the body's status is truthy. */
    method PatchOrderStatus(id: string, status: Option<string>) returns (r: Response<Order>)
      requires Valid()
      modifies this`orders
      ensures Valid()
      ensures OrderIndex(old(orders), id).None? ==> r == Fail(404, MSG_ORDER_NOT_FOUND) && orders == old(orders)
      ensures OrderIndex(old(orders), id).Some? ==>
        var k := OrderIndex(old(orders), id).value;
        var o := old(orders)[k];
        && orders == old(orders)[k := o.(status := if Present(status) then status.value else o.status)]
        && r == Ok(200, orders[k])
    {
      var idx := OrderIndex(orders, id);
      if idx.None? {
        return Fail(404, MSG_ORDER_NOT_FOUND);
      }
      var o := orders[idx.value];
      orders := orders[idx.value := o.(status := if Present(status) then status.value else o.status)];
      r := Ok(200, orders[idx.value]);
    }

    /** `GET /api/admin/dashboard`: the KPIs and the first ten orders and payments. */
    function AdminDashboard(): (d: Dashboard.Summary)
      reads this
      ensures d.kpi.totalRevenue == Dashboard.Revenue(orders)
      ensures d.kpi.totalOrders == |orders|
      ensures d.kpi.pendingOrders == |Dashboard.PendingOrders(orders)| <= d.kpi.totalOrders
      ensures d.kpi.totalCustomers == |Dashboard.Customers(users)| <= |users|
      ensures d.inventory == inventory && d.promos == promos
      ensures |d.orders| == (if |orders| < 10 then |orders| else 10) && d.orders == orders[..|d.orders|]
      ensures |d.payments| == (if |payments| < 10 then |payments| else 10) && d.payments == payments[..|d.payments|]
    {
      Dashboard.Summarize(orders, payments, users, inventory, promos)
    }
  }
}

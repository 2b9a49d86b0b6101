/** The records the server keeps in its in-memory `db` and its fixed table of
    payment methods, the request bodies its routes read (already parsed from
    JSON), and the replies they send. */
module Records {
  import opened Wrappers

  /** An instant as `Date.prototype.toISOString` writes it; opaque here. */
  type Timestamp = string

  datatype MenuItem = MenuItem(
    id: string, name: string, category: string,
    price: int, stock: int, spicyLevel: int, featured: bool)

  datatype Promo = Promo(code: string, discountPercent: int, active: bool)

  datatype PaymentMethod = PaymentMethod(id: string, name: string, fee: int, instant: bool)

  datatype User = User(id: string, name: string, email: string, role: string, provider: string)

  datatype InventoryItem = InventoryItem(item: string, unit: string, remaining: int)

  /** A resolved cart line: the menu item as it was when ordered, with `qty` and `lineTotal`. */
  datatype OrderLine = OrderLine(item: MenuItem, qty: int, lineTotal: int)

  datatype Order = Order(
    id: string, createdAt: Timestamp,
    customerName: string, customerPhone: string, deliveryAddress: string,
    status: string,
    items: seq<OrderLine>, paymentMethod: PaymentMethod,
    subtotal: int, discount: int, fee: int, total: int,
    promoCode: Option<string>)

  datatype PaymentStatus = Paid | Pending

  /** A payment record; `methodName` is the field the server calls `method`. */
  datatype Payment = Payment(
    id: string, orderId: string, methodName: string, amount: int,
    status: PaymentStatus, timestamp: Timestamp)

  /** A cart line as the client posts it; `qty` may be absent. */
  datatype RequestLine = RequestLine(menuId: string, qty: Option<int>)

  /** The body of `POST /api/orders`; `items` is None when it is not an array. */
  datatype OrderRequest = OrderRequest(
    customerName: Option<string>, customerPhone: Option<string>,
    deliveryAddress: Option<string>, items: Option<seq<RequestLine>>,
    paymentMethodId: Option<string>, promoCode: Option<string>)

  /** The body of `POST /api/menu`. */
  datatype MenuRequest = MenuRequest(
    name: Option<string>, category: Option<string>, price: Option<int>,
    stock: Option<int>, spicyLevel: Option<int>, featured: Option<bool>)

  /** The body of `PUT /api/menu/:id`: each present field overrides the stored one. */
  datatype MenuPatch = MenuPatch(
    id: Option<string>, name: Option<string>, category: Option<string>,
    price: Option<int>, stock: Option<int>, spicyLevel: Option<int>, featured: Option<bool>)

  /** The body of `POST /api/auth/social-login`. */
  datatype LoginRequest = LoginRequest(provider: Option<string>, email: Option<string>, name: Option<string>)

  /** A successful social login: the demo token and the user it names. */
  datatype Session = Session(token: string, user: User, note: string)

  /** A reply: a success status with its body, or an error status with its message. */
  datatype Response<+T> = Ok(code: int, body: T) | Fail(code: int, message: string)

  /** JavaScript truthiness of an optional string field: present and not empty. */
  predicate Present(s: Option<string>) {
    s.Some? && s.value != ""
  }

  const PAYMENT_METHODS: seq<PaymentMethod> := [
    PaymentMethod("qris", "QRIS", 0, true),
    PaymentMethod("gopay", "GoPay", 1500, true),
    PaymentMethod("ovo", "OVO", 1500, true),
    PaymentMethod("dana", "DANA", 1500, true),
    PaymentMethod("va_bca", "Virtual Account BCA", 2500, false),
    PaymentMethod("va_bni", "Virtual Account BNI", 2500, false),
    PaymentMethod("cod", "Cash on Delivery", 0, false),
    PaymentMethod("card", "Kartu Kredit/Debit", 3500, true)
  ]

  const SEED_USERS: seq<User> := [
    User("admin-1", "Admin Mpok Mar", "admin@mpokmar.id", "admin", "local")
  ]

  const SEED_MENU: seq<MenuItem> := [
    MenuItem("m1", "Nasi Uduk Betawi", "Makanan", 22000, 40, 1, true),
    MenuItem("m2", "Soto Betawi", "Makanan", 35000, 25, 2, true),
    MenuItem("m3", "Gabus Pucung", "Makanan", 38000, 15, 1, false),
    MenuItem("m4", "Kerak Telor", "Camilan", 25000, 30, 1, true),
    MenuItem("m5", "Bir Pletok", "Minuman", 15000, 60, 0, false),
    MenuItem("m6", "Es Selendang Mayang", "Minuman", 18000, 45, 0, true)
  ]

  const SEED_PROMOS: seq<Promo> := [
    Promo("BETAWI10", 10, true),
    Promo("ONDEL20", 20, true)
  ]

  const SEED_INVENTORY: seq<InventoryItem> := [
    InventoryItem("Beras pandan wangi", "kg", 120),
    InventoryItem("Daging sapi", "kg", 42),
    InventoryItem("Telor bebek", "butir", 300)
  ]

  const AWAITING_CONFIRMATION := "Menunggu Konfirmasi"
  const DONE := "Selesai"
  const PICKUP := "Ambil di tempat"
  const CUSTOMER_ROLE := "customer"

  const MSG_ORDER_INCOMPLETE := "Data order belum lengkap."
  const MSG_BAD_PAYMENT_METHOD := "Metode pembayaran tidak valid."
  const MSG_MENU_FIELDS := "Field name, category, dan price wajib diisi."
  const MSG_MENU_NOT_FOUND := "Menu tidak ditemukan."
  const MSG_ORDER_NOT_FOUND := "Order tidak ditemukan."
  const MSG_LOGIN_FIELDS := "provider, email, dan name wajib diisi."
  const MSG_PROVIDER := "Provider belum didukung."
  const DEMO_NOTE := "Mode demo OAuth aktif. Integrasikan client_id & client_secret untuk produksi."

  /** The message of the error thrown for a cart line whose menu id is unknown. */
  function MissingMenuMessage(menuId: string): string {
    "Menu " + menuId + " tidak ditemukan"
  }
}

/** The record and enum shapes shared by the storefront's pages (src/types/index.ts). */
module Types {
  import opened Wrappers

  /** A catalog entry. Prices are whole rupees. */
  datatype Service = Service(
    id: string,
    name: string,
    description: string,
    price: int,
    originalPrice: Option<int>,
    category: string,
    features: seq<string>)

  datatype CartItem = CartItem(service: Service, quantity: int)

  datatype CustomerDetails = CustomerDetails(
    name: string,
    email: string,
    phone: string,
    additionalInfo: Option<string>)

  /** The two coupon kinds: a percentage of the price, or a fixed rupee amount. */
  datatype CouponType = Percentage | Fixed

  /** A coupon; `kind` is the source's `type` field. */
  datatype CouponCode = CouponCode(code: string, discount: int, kind: CouponType, isValid: bool)

  /** The four order statuses. */
  datatype OrderStatus = Pending | Processing | Completed | Cancelled

  /** The string a status is stored and compared as. */
  function StatusName(s: OrderStatus): string {
    match s
    case Pending => "pending"
    case Processing => "processing"
    case Completed => "completed"
    case Cancelled => "cancelled"
  }

  /** The status a stored string denotes, if it is one of the four. */
  function ParseStatus(name: string): (r: Option<OrderStatus>)
    ensures r.Some? ==> StatusName(r.value) == name
  {
    if name == "pending" then Some(Pending)
    else if name == "processing" then Some(Processing)
    else if name == "completed" then Some(Completed)
    else if name == "cancelled" then Some(Cancelled)
    else None
  }

  /** The status enum is closed: every status round-trips through its string, and no other string parses. */
  lemma StatusNameRoundTrip(s: OrderStatus, name: string)
    ensures ParseStatus(StatusName(s)) == Some(s)
    ensures ParseStatus(name).None? <==> name !in {"pending", "processing", "completed", "cancelled"}
  {
  }

  datatype Order = Order(
    id: string,
    customer: CustomerDetails,
    items: seq<CartItem>,
    total: real,
    discount: real,
    finalAmount: real,
    couponCode: Option<string>,
    status: OrderStatus,
    paymentId: Option<string>,
    createdAt: string,
    updatedAt: string)

  datatype PaymentDetails = PaymentDetails(
    orderId: string,
    amount: real,
    currency: string,
    razorpayOrderId: Option<string>,
    razorpayPaymentId: Option<string>,
    razorpaySignature: Option<string>)
}

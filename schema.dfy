/**
 * The row types of the four tables and their closed enumerations
 * (src/lib/database.types.ts). Primary keys are the keys of the store's
 * maps, so the rows below do not repeat their own `id`.
 */
module Schema {
  import opened Wrappers

  /** A primary key, allocated by the store. */
  type Id = nat

  datatype VoucherStatus = Active | Used
  datatype Role = Cliente | Validador
  datatype PaymentStatus = Pending | AwaitingPayment | Confirmed | Received | Failed | Refunded
  datatype BillingType = Pix | CreditCard

  function VoucherStatusName(v: VoucherStatus): string {
    match v
    case Active => "active"
    case Used => "used"
  }

  function RoleName(r: Role): string {
    match r
    case Cliente => "cliente"
    case Validador => "validador"
  }

  function PaymentStatusName(p: PaymentStatus): string {
    match p
    case Pending => "PENDING"
    case AwaitingPayment => "AWAITING_PAYMENT"
    case Confirmed => "CONFIRMED"
    case Received => "RECEIVED"
    case Failed => "FAILED"
    case Refunded => "REFUNDED"
  }

  function BillingTypeName(b: BillingType): string {
    match b
    case Pix => "PIX"
    case CreditCard => "CREDIT_CARD"
  }

  /** The status column accepts exactly the two literals of the enumeration. */
  function ParseVoucherStatus(t: string): (r: Option<VoucherStatus>)
    ensures r.Some? <==> t == "active" || t == "used"
    ensures r.Some? ==> VoucherStatusName(r.value) == t
  {
    if t == "active" then Some(Active) else if t == "used" then Some(Used) else None
  }

  /** A role is exactly one of `cliente` and `validador`. */
  function ParseRole(t: string): (r: Option<Role>)
    ensures r.Some? <==> t == "cliente" || t == "validador"
    ensures r.Some? ==> RoleName(r.value) == t
  {
    if t == "cliente" then Some(Cliente) else if t == "validador" then Some(Validador) else None
  }

  /** A payment status is one of the six literals. */
  function ParsePaymentStatus(t: string): (r: Option<PaymentStatus>)
    ensures r.Some? <==> t in ["PENDING", "AWAITING_PAYMENT", "CONFIRMED", "RECEIVED", "FAILED", "REFUNDED"]
    ensures r.Some? ==> PaymentStatusName(r.value) == t
  {
    if t == "PENDING" then Some(Pending)
    else if t == "AWAITING_PAYMENT" then Some(AwaitingPayment)
    else if t == "CONFIRMED" then Some(Confirmed)
    else if t == "RECEIVED" then Some(Received)
    else if t == "FAILED" then Some(Failed)
    else if t == "REFUNDED" then Some(Refunded)
    else None
  }

  /** A billing type is `PIX` or `CREDIT_CARD`. */
  function ParseBillingType(t: string): (r: Option<BillingType>)
    ensures r.Some? <==> t == "PIX" || t == "CREDIT_CARD"
    ensures r.Some? ==> BillingTypeName(r.value) == t
  {
    if t == "PIX" then Some(Pix) else if t == "CREDIT_CARD" then Some(CreditCard) else None
  }

  /** Each enumeration's names are distinct, so parsing a name gives back its value. */
  lemma NamesRoundTrip(v: VoucherStatus, r: Role, p: PaymentStatus, b: BillingType)
    ensures ParseVoucherStatus(VoucherStatusName(v)) == Some(v)
    ensures ParseRole(RoleName(r)) == Some(r)
    ensures ParsePaymentStatus(PaymentStatusName(p)) == Some(p)
    ensures ParseBillingType(BillingTypeName(b)) == Some(b)
  {
  }

  /** `voucher_types` row: read-only catalogue data. */
  datatype VoucherType = VoucherType(name: string, description: string, value: int, imageUrl: Option<string>)

  /**
   * `vouchers` row. `userId`, `validatedBy` and `usedAt` are nullable.
   * `paymentId` is not in the typed row but is written by payment issuance.
   */
  datatype Voucher = Voucher(
    code: string,
    voucherTypeId: Id,
    userId: Option<Id>,
    validatedBy: Option<Id>,
    status: VoucherStatus,
    usedAt: Option<string>,
    paymentId: Option<Id>)

  /** `users` row. */
  datatype User = User(loginId: string, name: string, email: string, passwordHash: string, role: Role)

  /** The JSON body of a gateway notification, kept as `asaas_webhook_data`. */
  datatype WebhookBody = WebhookBody(event: Option<string>, paymentId: Option<string>)

  /**
   * `payments` row. `billingType` holds the string the request sent:
   * the route inserts it before checking it names a billing type.
   * `updatedAt` is None until a route sets it.
   */
  datatype Payment = Payment(
    userId: Id,
    voucherTypeId: Id,
    gatewayPaymentId: Option<string>,
    gatewayCustomerId: Option<string>,
    billingType: string,
    value: int,
    status: PaymentStatus,
    pixEncodedImage: Option<string>,
    pixPayload: Option<string>,
    pixExpirationDate: Option<string>,
    creditCardToken: Option<string>,
    voucherId: Option<Id>,
    webhookData: Option<WebhookBody>,
    updatedAt: Option<string>)

  /** The authenticated principal: the user record the session token resolves to. */
  datatype AuthUser = AuthUser(id: Id, loginId: string, name: string, email: string, role: Role)
}

/**
 * Payment initiation (src/app/api/payments/route.ts): guards, find-or-create
 * the gateway customer, insert a PENDING payment, then either open a PIX
 * charge (AWAITING_PAYMENT) or charge a card (CONFIRMED / FAILED, and a
 * voucher at once when confirmed).
 */
module Payments {
  import opened Wrappers
  import opened Schema
  import opened Text
  import opened Http
  import opened Db
  import opened Issuance

  const MsgUnauthenticated := "Não autenticado"
  const MsgForbidden := "Acesso negado"
  const MsgFieldsRequired := "Campos obrigatórios: voucher_type_id, billing_type, cpf"
  const MsgTypeNotFound := "Tipo de voucher não encontrado"
  const MsgPaymentFailed := "Erro ao criar pagamento"
  const MsgCardRequired := "Dados do cartão são obrigatórios"
  const MsgDeclined := "Pagamento não aprovado"
  const MsgBadBillingType := "billing_type deve ser PIX ou CREDIT_CARD"
  const DefaultIp := "127.0.0.1"

  datatype CreditCard = CreditCard(holderName: string, number: string, expiryMonth: string, expiryYear: string, ccv: string)
  datatype HolderInfo = HolderInfo(name: string, email: string, cpfCnpj: string, postalCode: string, addressNumber: string, phone: string)

  /** The JSON body of a payment request. */
  datatype PaymentRequest = PaymentRequest(
    voucherTypeId: Option<Id>,
    billingType: Option<string>,
    cpf: Option<string>,
    name: Option<string>,
    email: Option<string>,
    creditCard: Option<CreditCard>,
    holderInfo: Option<HolderInfo>)

  /** The request headers the route reads. */
  datatype Headers = Headers(forwardedFor: Option<string>, realIp: Option<string>)

  /** A payment as the gateway returns it. */
  datatype GatewayPayment = GatewayPayment(id: string, status: string, creditCardToken: Option<string>)

  datatype PixQrCode = PixQrCode(encodedImage: string, payload: string, expirationDate: string)

  /** What the gateway answers to each call of one request; `Err` is a thrown API error. */
  datatype Gateway = Gateway(
    customerLookup: Result<Option<string>>,
    customerCreated: Result<string>,
    payment: Result<GatewayPayment>,
    qrCode: Result<PixQrCode>)

  /** The gateway calls a request makes, in order. */
  datatype GatewayCall =
    | FindCustomer(cpfCnpj: string)
    | CreateCustomer(name: string, cpfCnpj: string, email: string)
    | CreatePixPayment(customer: string, value: int, description: string, externalReference: Id)
    | GetPixQrCode(paymentId: string)
    | CreateCardPayment(customer: string, value: int, description: string, externalReference: Id,
                        card: CreditCard, holder: HolderInfo, remoteIp: string)
  {
    predicate CreatesPayment() {
      CreatePixPayment? || CreateCardPayment?
    }
  }

  /** Reply bodies: `{error}`, the PIX charge, the confirmed card charge, the declined one. */
  datatype PaymentBody =
    | PaymentError(error: string)
    | PixCreated(paymentId: Id, status: string, pix: PixQrCode)
    | CardConfirmed(paymentId: Id, status: string, voucherCode: string)
    | CardDeclined(error: string, status: string)

  datatype Initiated = Initiated(tables: Tables, reply: Reply<PaymentBody>, calls: seq<GatewayCall>)

  /** The address sent for fraud analysis: first forwarded entry, else the real-IP header, else loopback. */
  function RemoteIp(h: Headers): (ip: string)
    ensures h.forwardedFor.Some? && BeforeComma(h.forwardedFor.value) != "" ==> ip == BeforeComma(h.forwardedFor.value)
    ensures !(h.forwardedFor.Some? && BeforeComma(h.forwardedFor.value) != "") && Truthy(h.realIp) ==> ip == h.realIp.value
    ensures !(h.forwardedFor.Some? && BeforeComma(h.forwardedFor.value) != "") && !Truthy(h.realIp) ==> ip == DefaultIp
    ensures ip != ""
  {
    var first := if h.forwardedFor.Some? then Some(BeforeComma(h.forwardedFor.value)) else None;
    OrElse(OrElse(first, h.realIp), Some(DefaultIp)).value
  }

  /** The three required fields are present (JavaScript truthiness). */
  predicate Complete(req: PaymentRequest) {
    req.voucherTypeId.Some? && Truthy(req.billingType) && Truthy(req.cpf)
  }

  /** Find the customer by CPF digits, or create one when the lookup finds none. */
  function FindOrCreateCustomer(gw: Gateway, cpfCnpj: string, name: string, email: string): (r: (Result<string>, seq<GatewayCall>))
    ensures |r.1| >= 1 && r.1[0] == FindCustomer(cpfCnpj)
    ensures |r.1| == 2 <==> gw.customerLookup == Ok(None)
    ensures |r.1| == 2 ==> r.1[1] == CreateCustomer(name, cpfCnpj, email) && r.0 == gw.customerCreated
    ensures gw.customerLookup.Ok? && gw.customerLookup.value.Some? ==> r == (Ok(gw.customerLookup.value.value), [FindCustomer(cpfCnpj)])
    ensures gw.customerLookup.Err? ==> r == (Err(gw.customerLookup.message), [FindCustomer(cpfCnpj)])
    ensures ChargesRefer(r.1, 0) && forall i :: 0 <= i < |r.1| ==> !r.1[i].CreatesPayment()
  {
    match gw.customerLookup
    case Err(m) => (Err(m), [FindCustomer(cpfCnpj)])
    case Ok(Some(c)) => (Ok(c), [FindCustomer(cpfCnpj)])
    case Ok(None) => (gw.customerCreated, [FindCustomer(cpfCnpj), CreateCustomer(name, cpfCnpj, email)])
  }

  /** The row inserted before any gateway payment call. */
  function PendingRow(userId: Id, voucherTypeId: Id, billingType: string, value: int, customer: string): Payment {
    Payment(userId, voucherTypeId, None, Some(customer), billingType, value, Pending,
            None, None, None, None, None, None, None)
  }

  function InsertPayment(t: Tables, row: Payment): (t': Tables)
    ensures t'.payments == t.payments[t.nextId := row] && t'.nextId == t.nextId + 1
    ensures t'.users == t.users && t'.voucherTypes == t.voucherTypes && t'.vouchers == t.vouchers && t'.codeIndex == t.codeIndex
  {
    t.(payments := t.payments[t.nextId := row], nextId := t.nextId + 1)
  }

  lemma InsertPaymentConsistent(t: Tables, row: Payment)
    requires Consistent(t) && row.voucherId.None? && row.voucherTypeId in t.voucherTypes
    ensures Consistent(InsertPayment(t, row))
  {
    var t' := InsertPayment(t, row);
    forall id | id in t'.vouchers && t'.vouchers[id].paymentId.Some?
      ensures t'.vouchers[id].paymentId.value != t.nextId
    {
      assert t.vouchers[id].paymentId.value in t.payments;
    }
  }

  /**
   * `t'` differs from `t` at most in payment `id`, which keeps its owner,
   * type, price and billing type.
   */
  ghost predicate OnlyRowChanged(t: Tables, t': Tables, id: Id)
    requires id in t.payments
  {
    && t'.users == t.users && t'.voucherTypes == t.voucherTypes
    && id in t'.payments && t'.payments == t.payments[id := t'.payments[id]]
    && t'.payments[id].userId == t.payments[id].userId
    && t'.payments[id].voucherTypeId == t.payments[id].voucherTypeId
    && t'.payments[id].value == t.payments[id].value
    && t'.payments[id].billingType == t.payments[id].billingType
  }

  /** Every charge in `calls` refers to payment `id`. */
  predicate ChargesRefer(calls: seq<GatewayCall>, id: Id) {
    forall i :: 0 <= i < |calls| && calls[i].CreatesPayment() ==> calls[i].externalReference == id
  }

  /** The PIX branch: open the charge, read its QR code, record both. */
  ghost function PixBranch(t: Tables, id: Id, customer: string, value: int, description: string, gw: Gateway, now: string): (o: Initiated)
    requires Consistent(t) && id in t.payments
    ensures Consistent(o.tables) && ChargesRefer(o.calls, id)
  {
    var call := CreatePixPayment(customer, value, description, id);
    match gw.payment
    case Err(m) => Initiated(t, Reply(500, PaymentError(m)), [call])
    case Ok(gp) =>
      match gw.qrCode
      case Err(m) => Initiated(t, Reply(500, PaymentError(m)), [call, GetPixQrCode(gp.id)])
      case Ok(qr) =>
        var row := t.payments[id].(gatewayPaymentId := Some(gp.id), status := AwaitingPayment,
          pixEncodedImage := Some(qr.encodedImage), pixPayload := Some(qr.payload),
          pixExpirationDate := Some(qr.expirationDate), updatedAt := Some(now));
        UpdatePaymentConsistent(t, id, row);
        Initiated(t.(payments := t.payments[id := row]), Reply(200, PixCreated(id, "AWAITING_PAYMENT", qr)), [call, GetPixQrCode(gp.id)])
  }

  /** The gateway's verdict on a card charge. */
  predicate CardCaptured(gp: GatewayPayment) {
    gp.status == "CONFIRMED" || gp.status == "RECEIVED"
  }

  /** The row after the card charge: the gateway id, CONFIRMED or FAILED, the card token when one came back. */
  function CardRecorded(p: Payment, gp: GatewayPayment, now: string): (r: Payment)
    ensures r.gatewayPaymentId == Some(gp.id) && r.updatedAt == Some(now)
    ensures r.status == Confirmed <==> CardCaptured(gp)
    ensures r.status == Failed <==> !CardCaptured(gp)
    // `creditCardToken || null`: a token only when the gateway returned a non-empty one
    ensures r.creditCardToken.Some? <==> Truthy(gp.creditCardToken)
    ensures r.creditCardToken.Some? ==> r.creditCardToken == gp.creditCardToken
    // no other column changes
    ensures r.(gatewayPaymentId := p.gatewayPaymentId, status := p.status, creditCardToken := p.creditCardToken,
               updatedAt := p.updatedAt) == p
  {
    p.(gatewayPaymentId := Some(gp.id), status := if CardCaptured(gp) then Confirmed else Failed,
       creditCardToken := if Truthy(gp.creditCardToken) then gp.creditCardToken else None, updatedAt := Some(now))
  }

  /** The card branch: charge, record the verdict, issue the voucher when captured. */
  ghost function CardBranch(t: Tables, id: Id, userId: Id, req: PaymentRequest, customer: string, value: int, description: string,
                            headers: Headers, gw: Gateway, now: string, candidate: string, issueDb: DbReply): (o: Initiated)
    requires Consistent(t) && id in t.payments
    requires req.voucherTypeId == Some(t.payments[id].voucherTypeId)
    ensures Consistent(o.tables) && ChargesRefer(o.calls, id)
  {
    if req.creditCard.None? || req.holderInfo.None? then Initiated(t, Reply(400, PaymentError(MsgCardRequired)), [])
    else
      var call := CreateCardPayment(customer, value, description, id, req.creditCard.value, req.holderInfo.value, RemoteIp(headers));
      match gw.payment
      case Err(m) => Initiated(t, Reply(500, PaymentError(m)), [call])
      case Ok(gp) =>
        var row := CardRecorded(t.payments[id], gp, now);
        UpdatePaymentConsistent(t, id, row);
        var t1 := t.(payments := t.payments[id := row]);
        if !CardCaptured(gp) then Initiated(t1, Reply(402, CardDeclined(MsgDeclined, gp.status)), [call])
        else
          var i := Issue(t1, id, userId, req.voucherTypeId.value, candidate, issueDb);
          match i.result
          case Err(m) => Initiated(i.tables, Reply(500, PaymentError(m)), [call])
          case Ok(v) => Initiated(i.tables, Reply(200, CardConfirmed(id, "CONFIRMED", v.code)), [call])
  }

  /** The branch on the billing type, once the PENDING row `id` is written. */
  ghost function Branch(t: Tables, id: Id, user: AuthUser, req: PaymentRequest, customer: string, vt: VoucherType,
                        headers: Headers, gw: Gateway, now: string, candidate: string, issueDb: DbReply): (o: Initiated)
    requires Consistent(t) && id in t.payments
    requires req.voucherTypeId == Some(t.payments[id].voucherTypeId) && Truthy(req.billingType)
    ensures Consistent(o.tables) && ChargesRefer(o.calls, id)
  {
    var description := "Voucher - " + vt.name;
    if req.billingType.value == "PIX" then PixBranch(t, id, customer, vt.value, description, gw, now)
    else if req.billingType.value == "CREDIT_CARD" then
      CardBranch(t, id, user.id, req, customer, vt.value, description, headers, gw, now, candidate, issueDb)
    else Initiated(t, Reply(400, PaymentError(MsgBadBillingType)), [])
  }

  /** The customer of a request: looked up by the CPF's digits; created with the request's name and email, else the principal's. */
  function CustomerFor(gw: Gateway, user: AuthUser, req: PaymentRequest): (r: (Result<string>, seq<GatewayCall>))
    requires Truthy(req.cpf)
  {
    FindOrCreateCustomer(gw, Digits(req.cpf.value), OrElse(req.name, Some(user.name)).value, OrElse(req.email, Some(user.email)).value)
  }

  /** The request passes every guard, so the route goes on to the gateway. */
  predicate Passes(t: Tables, principal: Option<AuthUser>, body: Result<PaymentRequest>) {
    && principal.Some? && principal.value.role == Cliente
    && body.Ok? && Complete(body.value) && body.value.voucherTypeId.value in t.voucherTypes
  }

  /** The PENDING row a request inserts once its customer is settled. */
  function NewRow(t: Tables, user: AuthUser, req: PaymentRequest, customer: string): Payment
    requires Complete(req) && req.voucherTypeId.value in t.voucherTypes
  {
    PendingRow(user.id, req.voucherTypeId.value, req.billingType.value, t.voucherTypes[req.voucherTypeId.value].value, customer)
  }

  /** POST `/api/payments` on the tables, with the gateway calls it makes. */
  ghost function Initiation(t: Tables, principal: Option<AuthUser>, body: Result<PaymentRequest>, headers: Headers,
                            gw: Gateway, now: string, candidate: string, insertDb: DbReply, issueDb: DbReply): (o: Initiated)
    requires Consistent(t)
    ensures Consistent(o.tables)
    ensures o.reply.status == 401 <==> principal.None?
    ensures o.reply.status == 403 <==> principal.Some? && principal.value.role != Cliente
    // the guards answer before any write or gateway call
    ensures !Passes(t, principal, body) ==> o.tables == t && o.calls == []
    ensures principal.Some? && principal.value.role == Cliente && body.Ok? && !Complete(body.value) ==>
      o.reply == Reply(400, PaymentError(MsgFieldsRequired))
    ensures (principal.Some? && principal.value.role == Cliente && body.Ok? && Complete(body.value) &&
             body.value.voucherTypeId.value !in t.voucherTypes) ==> o.reply == Reply(404, PaymentError(MsgTypeNotFound))
  {
    if principal.None? then Initiated(t, Reply(401, PaymentError(MsgUnauthenticated)), [])
    else if principal.value.role != Cliente then Initiated(t, Reply(403, PaymentError(MsgForbidden)), [])
    else if body.Err? then Initiated(t, Reply(500, PaymentError(body.message)), [])
    else if !Complete(body.value) then Initiated(t, Reply(400, PaymentError(MsgFieldsRequired)), [])
    else if body.value.voucherTypeId.value !in t.voucherTypes then Initiated(t, Reply(404, PaymentError(MsgTypeNotFound)), [])
    else
      var user := principal.value;
      var req := body.value;
      var (customer, lookup) := CustomerFor(gw, user, req);
      if customer.Err? then Initiated(t, Reply(500, PaymentError(customer.message)), lookup)
      else if insertDb.DbError? then Initiated(t, Reply(500, PaymentError(MsgPaymentFailed)), lookup)
      else
        var row := NewRow(t, user, req, customer.value);
        InsertPaymentConsistent(t, row);
        var b := Branch(InsertPayment(t, row), t.nextId, user, req, customer.value,
                        t.voucherTypes[req.voucherTypeId.value], headers, gw, now, candidate, issueDb);
        Initiated(b.tables, b.reply, lookup + b.calls)
  }

  /** Past the guards, the customer is settled and the PENDING row inserted. */
  ghost predicate Admitted(t: Tables, principal: Option<AuthUser>, body: Result<PaymentRequest>, gw: Gateway, insertDb: DbReply) {
    Passes(t, principal, body) && CustomerFor(gw, principal.value, body.value).0.Ok? && insertDb == DbOk
  }

  /** The PENDING row an admitted request inserts. */
  function AdmittedRow(t: Tables, principal: Option<AuthUser>, body: Result<PaymentRequest>, gw: Gateway, insertDb: DbReply): Payment
    requires Admitted(t, principal, body, gw, insertDb)
  {
    NewRow(t, principal.value, body.value, CustomerFor(gw, principal.value, body.value).0.value)
  }

  /** The PENDING row of an admitted request, then its branch. */
  lemma AdmittedUnfolds(t: Tables, principal: Option<AuthUser>, body: Result<PaymentRequest>, headers: Headers,
                        gw: Gateway, now: string, candidate: string, insertDb: DbReply, issueDb: DbReply)
    requires Consistent(t) && Admitted(t, principal, body, gw, insertDb)
    ensures Consistent(InsertPayment(t, AdmittedRow(t, principal, body, gw, insertDb)))
    ensures var b := Branch(InsertPayment(t, AdmittedRow(t, principal, body, gw, insertDb)), t.nextId, principal.value,
                            body.value, CustomerFor(gw, principal.value, body.value).0.value,
                            t.voucherTypes[body.value.voucherTypeId.value], headers, gw, now, candidate, issueDb);
      Initiation(t, principal, body, headers, gw, now, candidate, insertDb, issueDb) ==
      Initiated(b.tables, b.reply, CustomerFor(gw, principal.value, body.value).1 + b.calls)
  {
    InsertPaymentConsistent(t, AdmittedRow(t, principal, body, gw, insertDb));
  }

  /**
   * The customer is settled first: the calls start with the lookup by the
   * CPF's digits, followed by a creation only when the lookup found none.
   */
  lemma CustomerSettledFirst(t: Tables, principal: Option<AuthUser>, body: Result<PaymentRequest>, headers: Headers,
                             gw: Gateway, now: string, candidate: string, insertDb: DbReply, issueDb: DbReply)
    requires Consistent(t) && Passes(t, principal, body)
    ensures var o := Initiation(t, principal, body, headers, gw, now, candidate, insertDb, issueDb);
      CustomerFor(gw, principal.value, body.value).1 <= o.calls
  {
  }

  /** Every charge the route opens refers to the PENDING row it has just inserted. */
  lemma ChargeFollowsInsert(t: Tables, principal: Option<AuthUser>, body: Result<PaymentRequest>, headers: Headers,
                            gw: Gateway, now: string, candidate: string, insertDb: DbReply, issueDb: DbReply, i: nat)
    requires Consistent(t)
    requires var o := Initiation(t, principal, body, headers, gw, now, candidate, insertDb, issueDb);
      i < |o.calls| && o.calls[i].CreatesPayment()
    ensures var o := Initiation(t, principal, body, headers, gw, now, candidate, insertDb, issueDb);
      && Admitted(t, principal, body, gw, insertDb)
      && o.calls[i].externalReference == t.nextId && t.nextId !in t.payments
  {
    if Admitted(t, principal, body, gw, insertDb) {
      AdmittedUnfolds(t, principal, body, headers, gw, now, candidate, insertDb, issueDb);
    }
  }

  lemma PixOnlyChangesRow(t: Tables, id: Id, customer: string, value: int, description: string, gw: Gateway, now: string)
    requires Consistent(t) && id in t.payments
    ensures OnlyRowChanged(t, PixBranch(t, id, customer, value, description, gw, now).tables, id)
  {
    var t' := PixBranch(t, id, customer, value, description, gw, now).tables;
    if gw.payment.Ok? && gw.qrCode.Ok? {
      var row := t'.payments[id];
      assert t' == t.(payments := t.payments[id := row]);
    } else {
      assert t' == t;
      assert t.payments == t.payments[id := t.payments[id]];
    }
  }

  lemma IssueOnlyChangesRow(t: Tables, t1: Tables, id: Id, userId: Id, voucherTypeId: Id, candidate: string, db: DbReply)
    requires Consistent(t1) && id in t.payments && OnlyRowChanged(t, t1, id)
    ensures OnlyRowChanged(t, Issue(t1, id, userId, voucherTypeId, candidate, db).tables, id)
  {
    if ExistingVoucher(t1, id).None? && InsertAccepted(t1, NewPaymentVoucher(id, userId, voucherTypeId, candidate), db) {
      IssueInserts(t1, id, userId, voucherTypeId, candidate, db);
      var row := t1.payments[id].(voucherId := Some(t1.nextId), status := Received);
      assert t.payments[id := t1.payments[id]][id := row] == t.payments[id := row];
    } else {
      assert Issue(t1, id, userId, voucherTypeId, candidate, db).tables == t1;
    }
  }

  lemma CardOnlyChangesRow(t: Tables, id: Id, userId: Id, req: PaymentRequest, customer: string, value: int, description: string,
                           headers: Headers, gw: Gateway, now: string, candidate: string, issueDb: DbReply)
    requires Consistent(t) && id in t.payments
    requires req.voucherTypeId == Some(t.payments[id].voucherTypeId)
    ensures OnlyRowChanged(t, CardBranch(t, id, userId, req, customer, value, description, headers, gw, now, candidate, issueDb).tables, id)
  {
    if req.creditCard.Some? && req.holderInfo.Some? && gw.payment.Ok? && CardCaptured(gw.payment.value) {
      var row := CardRecorded(t.payments[id], gw.payment.value, now);
      UpdatePaymentConsistent(t, id, row);
      var t1 := t.(payments := t.payments[id := row]);
      IssueOnlyChangesRow(t, t1, id, userId, req.voucherTypeId.value, candidate, issueDb);
    } else if req.creditCard.Some? && req.holderInfo.Some? && gw.payment.Ok? {
      var row := CardRecorded(t.payments[id], gw.payment.value, now);
      assert CardBranch(t, id, userId, req, customer, value, description, headers, gw, now, candidate, issueDb).tables ==
        t.(payments := t.payments[id := row]);
    } else {
      assert CardBranch(t, id, userId, req, customer, value, description, headers, gw, now, candidate, issueDb).tables == t;
      assert t.payments == t.payments[id := t.payments[id]];
    }
  }

  /** A branch changes only the row it is given, and only outside its owner, type, price and billing type. */
  lemma BranchOnlyChangesRow(t: Tables, id: Id, user: AuthUser, req: PaymentRequest, customer: string, vt: VoucherType,
                             headers: Headers, gw: Gateway, now: string, candidate: string, issueDb: DbReply)
    requires Consistent(t) && id in t.payments
    requires req.voucherTypeId == Some(t.payments[id].voucherTypeId) && Truthy(req.billingType)
    ensures OnlyRowChanged(t, Branch(t, id, user, req, customer, vt, headers, gw, now, candidate, issueDb).tables, id)
  {
    if req.billingType.value == "PIX" {
      PixOnlyChangesRow(t, id, customer, vt.value, "Voucher - " + vt.name, gw, now);
    } else if req.billingType.value == "CREDIT_CARD" {
      CardOnlyChangesRow(t, id, user.id, req, customer, vt.value, "Voucher - " + vt.name, headers, gw, now, candidate, issueDb);
    }
  }

  /**
   * A request writes only by inserting one new payment, for the principal,
   * the requested type, its price and the billing type sent; no other payment changes.
   */
  lemma WriteIsOneNewPayment(t: Tables, principal: Option<AuthUser>, body: Result<PaymentRequest>, headers: Headers,
                             gw: Gateway, now: string, candidate: string, insertDb: DbReply, issueDb: DbReply)
    requires Consistent(t)
    requires Initiation(t, principal, body, headers, gw, now, candidate, insertDb, issueDb).tables != t
    ensures var o := Initiation(t, principal, body, headers, gw, now, candidate, insertDb, issueDb);
      && Admitted(t, principal, body, gw, insertDb)
      && o.tables.users == t.users && o.tables.voucherTypes == t.voucherTypes
      && o.tables.payments.Keys == t.payments.Keys + {t.nextId} && t.nextId !in t.payments
      && (forall q :: q in t.payments ==> o.tables.payments[q] == t.payments[q])
      && o.tables.payments[t.nextId].userId == principal.value.id
      && o.tables.payments[t.nextId].voucherTypeId == body.value.voucherTypeId.value
      && o.tables.payments[t.nextId].value == t.voucherTypes[body.value.voucherTypeId.value].value
      && o.tables.payments[t.nextId].billingType == body.value.billingType.value
  {
    AdmittedUnfolds(t, principal, body, headers, gw, now, candidate, insertDb, issueDb);
    var row := AdmittedRow(t, principal, body, gw, insertDb);
    var t1 := InsertPayment(t, row);
    var b := Branch(t1, t.nextId, principal.value, body.value, CustomerFor(gw, principal.value, body.value).0.value,
                    t.voucherTypes[body.value.voucherTypeId.value], headers, gw, now, candidate, issueDb);
    BranchOnlyChangesRow(t1, t.nextId, principal.value, body.value, CustomerFor(gw, principal.value, body.value).0.value,
                         t.voucherTypes[body.value.voucherTypeId.value], headers, gw, now, candidate, issueDb);
    assert t.nextId !in t.payments;
    NewRowOnly(t.payments, t.nextId, row, b.tables.payments);
  }

  /** A map that is `m` with a new key `n` added and then rewritten keeps every old entry. */
  lemma NewRowOnly(m: map<Id, Payment>, n: Id, row: Payment, p: map<Id, Payment>)
    requires n !in m && n in p && p == m[n := row][n := p[n]]
    ensures p.Keys == m.Keys + {n}
    ensures forall q :: q in m ==> p[q] == m[q]
  {
  }

  /** PIX: the row ends AWAITING_PAYMENT with the gateway id and the QR fields, and the reply names the local payment. */
  lemma PixChargeAwaitsPayment(t: Tables, principal: Option<AuthUser>, body: Result<PaymentRequest>, headers: Headers,
                               gw: Gateway, now: string, candidate: string, insertDb: DbReply, issueDb: DbReply)
    requires Consistent(t) && Admitted(t, principal, body, gw, insertDb)
    requires body.value.billingType == Some("PIX") && gw.payment.Ok? && gw.qrCode.Ok?
    ensures var o := Initiation(t, principal, body, headers, gw, now, candidate, insertDb, issueDb);
      var gp := gw.payment.value;
      var qr := gw.qrCode.value;
      var vt := t.voucherTypes[body.value.voucherTypeId.value];
      var customer := CustomerFor(gw, principal.value, body.value);
      && o.reply == Reply(200, PixCreated(t.nextId, "AWAITING_PAYMENT", qr))
      && t.nextId in o.tables.payments
      && o.tables.payments[t.nextId] == AdmittedRow(t, principal, body, gw, insertDb).(
           gatewayPaymentId := Some(gp.id), status := AwaitingPayment, pixEncodedImage := Some(qr.encodedImage),
           pixPayload := Some(qr.payload), pixExpirationDate := Some(qr.expirationDate), updatedAt := Some(now))
      && o.calls == customer.1 + [CreatePixPayment(customer.0.value, vt.value, "Voucher - " + vt.name, t.nextId), GetPixQrCode(gp.id)]
  {
    AdmittedUnfolds(t, principal, body, headers, gw, now, candidate, insertDb, issueDb);
  }

  /**
   * A captured card payment issues its voucher at once: the reply says
   * "CONFIRMED" and carries the new code, while the stored status ends
   * RECEIVED, because issuance rewrites it, and the row links the voucher.
   */
  lemma CapturedCardEndsReceived(t: Tables, principal: Option<AuthUser>, body: Result<PaymentRequest>, headers: Headers,
                                 gw: Gateway, now: string, candidate: string, insertDb: DbReply)
    requires Consistent(t) && Admitted(t, principal, body, gw, insertDb)
    requires body.value.billingType == Some("CREDIT_CARD") && body.value.creditCard.Some? && body.value.holderInfo.Some?
    requires gw.payment.Ok? && CardCaptured(gw.payment.value)
    requires Upper(candidate) !in t.codeIndex
    ensures var o := Initiation(t, principal, body, headers, gw, now, candidate, insertDb, DbOk);
      && o.reply == Reply(200, CardConfirmed(t.nextId, "CONFIRMED", Upper(candidate)))
      && t.nextId in o.tables.payments
      && o.tables.payments[t.nextId].status == Received
      && o.tables.payments[t.nextId].voucherId.Some?
  {
    AdmittedUnfolds(t, principal, body, headers, gw, now, candidate, insertDb, DbOk);
    var t1 := InsertPayment(t, AdmittedRow(t, principal, body, gw, insertDb));
    assert t1.nextId == t.nextId + 1;
    CapturedCardBranch(t1, t.nextId, principal.value, body.value,
                       CustomerFor(gw, principal.value, body.value).0.value, t.voucherTypes[body.value.voucherTypeId.value],
                       headers, gw, now, candidate);
  }

  /** A captured card charge ends as the issuance on the recorded row says. */
  lemma CapturedCardUnfolds(t: Tables, t1: Tables, id: Id, userId: Id, req: PaymentRequest, customer: string, value: int,
                            description: string, headers: Headers, gw: Gateway, now: string, candidate: string)
    requires Consistent(t) && id in t.payments
    requires req.voucherTypeId == Some(t.payments[id].voucherTypeId)
    requires req.creditCard.Some? && req.holderInfo.Some? && gw.payment.Ok? && CardCaptured(gw.payment.value)
    requires t1 == t.(payments := t.payments[id := CardRecorded(t.payments[id], gw.payment.value, now)]) && Consistent(t1)
    requires Issue(t1, id, userId, req.voucherTypeId.value, candidate, DbOk).result.Ok?
    ensures var c := CardBranch(t, id, userId, req, customer, value, description, headers, gw, now, candidate, DbOk);
      var i := Issue(t1, id, userId, req.voucherTypeId.value, candidate, DbOk);
      c.tables == i.tables && c.reply == Reply(200, CardConfirmed(id, "CONFIRMED", i.result.value.code))
  {
  }

  lemma CapturedCardBranch(t: Tables, id: Id, user: AuthUser, req: PaymentRequest, customer: string, vt: VoucherType,
                           headers: Headers, gw: Gateway, now: string, candidate: string)
    requires Consistent(t) && id in t.payments && t.payments[id].voucherId.None?
    requires req.voucherTypeId == Some(t.payments[id].voucherTypeId) && req.billingType == Some("CREDIT_CARD")
    requires req.creditCard.Some? && req.holderInfo.Some? && gw.payment.Ok? && CardCaptured(gw.payment.value)
    requires Upper(candidate) !in t.codeIndex
    ensures var o := Branch(t, id, user, req, customer, vt, headers, gw, now, candidate, DbOk);
      && o.reply == Reply(200, CardConfirmed(id, "CONFIRMED", Upper(candidate)))
      && id in o.tables.payments
      && o.tables.payments[id].status == Received
      && o.tables.payments[id].voucherId == Some(t.nextId)
  {
    var description := "Voucher - " + vt.name;
    var row := CardRecorded(t.payments[id], gw.payment.value, now);
    UpdatePaymentConsistent(t, id, row);
    var t1 := t.(payments := t.payments[id := row]);
    assert ExistingVoucher(t1, id).None?;
    var typeId := req.voucherTypeId.value;
    assert InsertAccepted(t1, NewPaymentVoucher(id, user.id, typeId, candidate), DbOk);
    FreshVoucherIssued(t1, id, user.id, typeId, candidate);
    CapturedCardUnfolds(t, t1, id, user.id, req, customer, vt.value, description, headers, gw, now, candidate);
    assert Branch(t, id, user, req, customer, vt, headers, gw, now, candidate, DbOk) ==
      CardBranch(t, id, user.id, req, customer, vt.value, description, headers, gw, now, candidate, DbOk);
  }

  /** A card the gateway does not capture answers 402 with its status, is stored FAILED and issues nothing. */
  lemma DeclinedCardIsFailed(t: Tables, principal: Option<AuthUser>, body: Result<PaymentRequest>, headers: Headers,
                             gw: Gateway, now: string, candidate: string, insertDb: DbReply, issueDb: DbReply)
    requires Consistent(t) && Admitted(t, principal, body, gw, insertDb)
    requires body.value.billingType == Some("CREDIT_CARD") && body.value.creditCard.Some? && body.value.holderInfo.Some?
    requires gw.payment.Ok? && !CardCaptured(gw.payment.value)
    ensures var o := Initiation(t, principal, body, headers, gw, now, candidate, insertDb, issueDb);
      && o.reply == Reply(402, CardDeclined(MsgDeclined, gw.payment.value.status))
      && t.nextId in o.tables.payments
      && o.tables.payments[t.nextId].status == Failed
      && o.tables.vouchers == t.vouchers
  {
    AdmittedUnfolds(t, principal, body, headers, gw, now, candidate, insertDb, issueDb);
  }

  /**
   * An unsupported billing type, or a card request without card data, is
   * refused with 400 after the PENDING row was written, which stays behind.
   */
  lemma RefusedAfterInsertStrandsPendingRow(t: Tables, principal: Option<AuthUser>, body: Result<PaymentRequest>, headers: Headers,
                                            gw: Gateway, now: string, candidate: string, insertDb: DbReply, issueDb: DbReply)
    requires Consistent(t) && Admitted(t, principal, body, gw, insertDb)
    requires body.value.billingType != Some("PIX")
    requires body.value.billingType == Some("CREDIT_CARD") ==> body.value.creditCard.None? || body.value.holderInfo.None?
    ensures var o := Initiation(t, principal, body, headers, gw, now, candidate, insertDb, issueDb);
      && o.reply == Reply(400, PaymentError(if body.value.billingType == Some("CREDIT_CARD") then MsgCardRequired else MsgBadBillingType))
      && o.tables == InsertPayment(t, AdmittedRow(t, principal, body, gw, insertDb))
      && o.tables.payments[t.nextId].status == Pending
  {
    AdmittedUnfolds(t, principal, body, headers, gw, now, candidate, insertDb, issueDb);
  }

  /** The PIX branch of POST `/api/payments` on the store. */
  method OpenPixCharge(s: Store, id: Id, customer: string, value: int, description: string, gw: Gateway, now: string)
    returns (r: Reply<PaymentBody>, calls: seq<GatewayCall>)
    requires s.Valid() && id in s.payments
    modifies s
    ensures s.Valid()
    ensures var o := PixBranch(old(s.State()), id, customer, value, description, gw, now);
      s.State() == o.tables && r == o.reply && calls == o.calls
  {
    calls := [CreatePixPayment(customer, value, description, id)];
    if gw.payment.Err? {
      return Reply(500, PaymentError(gw.payment.message)), calls;
    }
    var gp := gw.payment.value;
    calls := calls + [GetPixQrCode(gp.id)];
    if gw.qrCode.Err? {
      return Reply(500, PaymentError(gw.qrCode.message)), calls;
    }
    var qr := gw.qrCode.value;
    var row := s.payments[id].(gatewayPaymentId := Some(gp.id), status := AwaitingPayment,
      pixEncodedImage := Some(qr.encodedImage), pixPayload := Some(qr.payload),
      pixExpirationDate := Some(qr.expirationDate), updatedAt := Some(now));
    UpdatePaymentConsistent(s.State(), id, row);
    s.UpdatePayment(id, row);
    r := Reply(200, PixCreated(id, "AWAITING_PAYMENT", qr));
  }

  /** The card branch of POST `/api/payments` on the store. */
  method ChargeCard(s: Store, id: Id, userId: Id, req: PaymentRequest, customer: string, value: int, description: string,
                    headers: Headers, gw: Gateway, now: string, candidate: string, issueDb: DbReply)
    returns (r: Reply<PaymentBody>, calls: seq<GatewayCall>)
    requires s.Valid() && id in s.payments
    requires req.voucherTypeId == Some(s.payments[id].voucherTypeId)
    modifies s
    ensures s.Valid()
    ensures var o := CardBranch(old(s.State()), id, userId, req, customer, value, description, headers, gw, now, candidate, issueDb);
      s.State() == o.tables && r == o.reply && calls == o.calls
  {
    if req.creditCard.None? || req.holderInfo.None? {
      return Reply(400, PaymentError(MsgCardRequired)), [];
    }
    // the first forwarded address, else the real-IP header, else loopback
    var remoteIp := RemoteIp(headers);
    calls := [CreateCardPayment(customer, value, description, id, req.creditCard.value, req.holderInfo.value, remoteIp)];
    if gw.payment.Err? {
      return Reply(500, PaymentError(gw.payment.message)), calls;
    }
    var gp := gw.payment.value;
    var captured := gp.status == "CONFIRMED" || gp.status == "RECEIVED";
    var row := CardRecorded(s.payments[id], gp, now);
    UpdatePaymentConsistent(s.State(), id, row);
    s.UpdatePayment(id, row);
    if !captured {
      return Reply(402, CardDeclined(MsgDeclined, gp.status)), calls;
    }
    var issued := CreateVoucherForPayment(s, id, userId, req.voucherTypeId.value, candidate, issueDb);
    if issued.Err? {
      return Reply(500, PaymentError(issued.message)), calls;
    }
    r := Reply(200, CardConfirmed(id, "CONFIRMED", issued.value.code));
  }

  /** `findCustomerByCpf`, then `createCustomer` when it finds none; the customer variable is reassigned as in the route. */
  method SettleCustomer(gw: Gateway, user: AuthUser, req: PaymentRequest) returns (customer: Result<string>, calls: seq<GatewayCall>)
    requires Truthy(req.cpf)
    ensures (customer, calls) == CustomerFor(gw, user, req)
  {
    var cpf := Digits(req.cpf.value);
    calls := [FindCustomer(cpf)];
    if gw.customerLookup.Err? {
      return Err(gw.customerLookup.message), calls;
    }
    var found := gw.customerLookup.value;
    if found.None? {
      calls := [FindCustomer(cpf), CreateCustomer(OrElse(req.name, Some(user.name)).value, cpf, OrElse(req.email, Some(user.email)).value)];
      return gw.customerCreated, calls;
    }
    customer := Ok(found.value);
  }

  /** The route past its guards: settle the customer, insert the PENDING row, run the branch. */
  method Proceed(s: Store, user: AuthUser, req: PaymentRequest, headers: Headers,
                 gw: Gateway, now: string, candidate: string, insertDb: DbReply, issueDb: DbReply)
    returns (r: Reply<PaymentBody>, calls: seq<GatewayCall>)
    requires s.Valid() && Passes(s.State(), Some(user), Ok(req))
    modifies s
    ensures s.Valid()
    ensures var o := Initiation(old(s.State()), Some(user), Ok(req), headers, gw, now, candidate, insertDb, issueDb);
      s.State() == o.tables && r == o.reply && calls == o.calls
  {
    ghost var t0 := s.State();
    var typeId := req.voucherTypeId.value;
    var vt := s.voucherTypes[typeId];

    var customer;
    customer, calls := SettleCustomer(gw, user, req);
    if customer.Err? {
      return Reply(500, PaymentError(customer.message)), calls;
    }

    // the local PENDING row comes before any charge
    if insertDb.DbError? {
      return Reply(500, PaymentError(MsgPaymentFailed)), calls;
    }
    var row := PendingRow(user.id, typeId, req.billingType.value, vt.value, customer.value);
    assert row == AdmittedRow(t0, Some(user), Ok(req), gw, insertDb);
    AdmittedUnfolds(t0, Some(user), Ok(req), headers, gw, now, candidate, insertDb, issueDb);
    ghost var t1 := InsertPayment(t0, row);
    var id := s.InsertPaymentRow(row);
    assert s.State() == t1;

    var description := "Voucher - " + vt.name;
    ghost var o := Branch(t1, id, user, req, customer.value, vt, headers, gw, now, candidate, issueDb);
    var more: seq<GatewayCall>;
    if req.billingType.value == "PIX" {
      r, more := OpenPixCharge(s, id, customer.value, vt.value, description, gw, now);
    } else if req.billingType.value == "CREDIT_CARD" {
      r, more := ChargeCard(s, id, user.id, req, customer.value, vt.value, description, headers, gw, now, candidate, issueDb);
    } else {
      r, more := Reply(400, PaymentError(MsgBadBillingType)), [];
    }
    assert s.State() == o.tables && r == o.reply && more == o.calls;
    calls := calls + more;
  }

  /** POST `/api/payments`; the gateway's answers are parameters and the calls made come back in order. */
  method Post(s: Store, principal: Option<AuthUser>, body: Result<PaymentRequest>, headers: Headers,
              gw: Gateway, now: string, candidate: string, insertDb: DbReply, issueDb: DbReply)
    returns (r: Reply<PaymentBody>, calls: seq<GatewayCall>)
    requires s.Valid()
    modifies s
    ensures s.Valid()
    ensures var o := Initiation(old(s.State()), principal, body, headers, gw, now, candidate, insertDb, issueDb);
      s.State() == o.tables && r == o.reply && calls == o.calls
  {
    if principal.None? {
      return Reply(401, PaymentError(MsgUnauthenticated)), [];
    }
    var user := principal.value;
    if user.role != Cliente {
      return Reply(403, PaymentError(MsgForbidden)), [];
    }
    if body.Err? {
      return Reply(500, PaymentError(body.message)), [];
    }
    var req := body.value;
    if req.voucherTypeId.None? || !Truthy(req.billingType) || !Truthy(req.cpf) {
      return Reply(400, PaymentError(MsgFieldsRequired)), [];
    }
    var typeId := req.voucherTypeId.value;
    if typeId !in s.voucherTypes {
      return Reply(404, PaymentError(MsgTypeNotFound)), [];
    }
    r, calls := Proceed(s, user, req, headers, gw, now, candidate, insertDb, issueDb);
  }
}

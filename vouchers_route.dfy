/**
 * Direct voucher creation (src/app/api/vouchers/route.ts): a signed-in
 * client names a voucher type and gets an active voucher with a fresh code,
 * without any payment.
 */
module VouchersRoute {
  import opened Wrappers
  import opened Schema
  import opened Text
  import opened Http
  import opened Db
  import opened Issuance

  const MsgUnauthenticated := "Não autenticado"
  const MsgForbidden := "Acesso negado"
  const MsgTypeRequired := "voucher_type_id é obrigatório"
  const MsgTypeNotFound := "Tipo de voucher não encontrado"
  const MsgInternal := "Erro interno do servidor"

  /** The JSON body of the request. */
  datatype VoucherRequest = VoucherRequest(voucherTypeId: Option<Id>)

  /** The reply body: an error, or the new voucher's id and code. */
  datatype VoucherBody = VoucherError(error: string) | VoucherCreated(id: Id, code: string)

  /** The row the route inserts: active, owned by the caller, not tied to a payment. */
  function OwnedVoucher(user: AuthUser, voucherTypeId: Id, candidate: string): Voucher {
    Voucher(VoucherCode(candidate), voucherTypeId, Some(user.id), None, Active, None, None)
  }

  /** Whether the request reaches the insert: a client, a parsed body, a known type. */
  predicate Admitted(t: Tables, principal: Option<AuthUser>, body: Result<VoucherRequest>) {
    && principal.Some? && principal.value.role == Cliente
    && body.Ok? && body.value.voucherTypeId.Some?
    && body.value.voucherTypeId.value in t.voucherTypes
  }

  /** Inserting an accepted voucher keeps the database consistent. */
  lemma InsertOwnedConsistent(t: Tables, v: Voucher, db: DbReply)
    requires Consistent(t)
    requires InsertAccepted(t, v, db) && v.paymentId.None? && v.status == Active
    requires v.usedAt.None? && v.validatedBy.None?
    ensures Consistent(InsertVoucher(t, v))
  {
    var t' := InsertVoucher(t, v);
    assert t.nextId !in t.vouchers;
    InsertVoucherIndexed(t, v);
    assert Allocated(t') && TypesKnown(t') && LinkedToPayment(t') && UseRecorded(t'.vouchers);
  }

  /** POST `/api/vouchers` on the tables; `candidate` is the nanoid draw. */
  ghost function Purchase(t: Tables, principal: Option<AuthUser>, body: Result<VoucherRequest>,
                          candidate: string, db: DbReply): (o: Step<VoucherBody>)
    requires Consistent(t)
    ensures Consistent(o.tables)
    ensures o.reply.status == 401 <==> principal.None?
    ensures o.reply.status == 403 <==> principal.Some? && principal.value.role != Cliente
    // only a created voucher changes the tables
    ensures o.reply.status != 201 ==> o.tables == t
    ensures o.reply.status == 201 <==>
      Admitted(t, principal, body) &&
      InsertAccepted(t, OwnedVoucher(principal.value, body.value.voucherTypeId.value, candidate), db)
  {
    if principal.None? then Step(t, Reply(401, VoucherError(MsgUnauthenticated)))
    else if principal.value.role != Cliente then Step(t, Reply(403, VoucherError(MsgForbidden)))
    else if body.Err? then Step(t, Reply(500, VoucherError(MsgInternal)))
    else if body.value.voucherTypeId.None? then Step(t, Reply(400, VoucherError(MsgTypeRequired)))
    else if body.value.voucherTypeId.value !in t.voucherTypes then Step(t, Reply(404, VoucherError(MsgTypeNotFound)))
    else
      var v := OwnedVoucher(principal.value, body.value.voucherTypeId.value, candidate);
      if !InsertAccepted(t, v, db) then Step(t, Reply(500, VoucherError(MsgCreateFailed)))
      else
        InsertOwnedConsistent(t, v, db);
        Step(InsertVoucher(t, v), Reply(201, VoucherCreated(t.nextId, v.code)))
  }

  /**
   * A created voucher is new, active, owned by the caller, of the requested
   * type, tied to no payment, and its code is the upper-cased draw, now
   * indexed to it; nothing else in the database changes.
   */
  lemma CreatedVoucherIsOwnedAndActive(t: Tables, principal: Option<AuthUser>, body: Result<VoucherRequest>,
                                       candidate: string, db: DbReply)
    requires Consistent(t)
    requires Purchase(t, principal, body, candidate, db).reply.status == 201
    ensures var o := Purchase(t, principal, body, candidate, db);
      var id := t.nextId;
      && id !in t.vouchers
      && o.reply.body == VoucherCreated(id, Upper(candidate))
      && o.tables.vouchers == t.vouchers[id := Voucher(Upper(candidate), body.value.voucherTypeId.value,
                                                       Some(principal.value.id), None, Active, None, None)]
      && o.tables.codeIndex[Upper(candidate)] == id
      && o.tables.users == t.users && o.tables.payments == t.payments && o.tables.voucherTypes == t.voucherTypes
  {
  }

  /** The guards answer in order: a signed-in client with a body, then a type, then a known type. */
  lemma GuardReplies(t: Tables, principal: Option<AuthUser>, body: Result<VoucherRequest>, candidate: string, db: DbReply)
    requires Consistent(t)
    requires principal.Some? && principal.value.role == Cliente
    ensures var r := Purchase(t, principal, body, candidate, db).reply;
      && (body.Err? ==> r == Reply(500, VoucherError(MsgInternal)))
      && (body.Ok? && body.value.voucherTypeId.None? ==> r == Reply(400, VoucherError(MsgTypeRequired)))
      && (body.Ok? && body.value.voucherTypeId.Some? && body.value.voucherTypeId.value !in t.voucherTypes ==>
            r == Reply(404, VoucherError(MsgTypeNotFound)))
      && (Admitted(t, principal, body) &&
          !InsertAccepted(t, OwnedVoucher(principal.value, body.value.voucherTypeId.value, candidate), db) ==>
            r == Reply(500, VoucherError(MsgCreateFailed)))
  {
  }

  /** POST `/api/vouchers`. */
  method Post(s: Store, principal: Option<AuthUser>, body: Result<VoucherRequest>, candidate: string, db: DbReply)
    returns (r: Reply<VoucherBody>)
    requires s.Valid()
    modifies s
    ensures s.Valid()
    ensures var o := Purchase(old(s.State()), principal, body, candidate, db);
      s.State() == o.tables && r == o.reply
  {
    if principal.None? {
      return Reply(401, VoucherError(MsgUnauthenticated));
    }
    var user := principal.value;
    if user.role != Cliente {
      return Reply(403, VoucherError(MsgForbidden));
    }
    if body.Err? {
      // a body that fails to parse is caught as an unexpected error
      return Reply(500, VoucherError(MsgInternal));
    }
    var voucherTypeId := body.value.voucherTypeId;
    if voucherTypeId.None? {
      return Reply(400, VoucherError(MsgTypeRequired));
    }
    if voucherTypeId.value !in s.voucherTypes {
      return Reply(404, VoucherError(MsgTypeNotFound));
    }
    var code := VoucherCode(candidate);
    var v := Voucher(code, voucherTypeId.value, Some(user.id), None, Active, None, None);
    if !InsertAccepted(s.State(), v, db) {
      return Reply(500, VoucherError(MsgCreateFailed));
    }
    var id := StoreVoucher(s, v);
    r := Reply(201, VoucherCreated(id, code));
  }
}

/**
 * `/api/validar` (src/app/api/validar/route.ts): GET looks a voucher up by
 * its upper-cased code, POST redeems it, moving it `active -> used` once.
 */
module ValidarRoute {
  import opened Wrappers
  import opened Schema
  import opened Text
  import opened Http
  import opened Db

  const MsgUnauthenticated := "Não autenticado"
  const MsgForbidden := "Acesso negado"
  const MsgCodeRequired := "Código é obrigatório"
  const MsgNotFound := "Voucher não encontrado"
  const MsgAlreadyUsed := "Voucher já foi utilizado"
  const MsgUpdateFailed := "Erro ao confirmar uso do voucher"
  const MsgInternal := "Erro interno do servidor"
  const MsgMarkedUsed := "Voucher marcado como usado"

  datatype TypeView = TypeView(name: string, value: int, description: string)
  datatype VoucherView = VoucherView(id: Id, code: string, status: VoucherStatus, usedAt: Option<string>, voucherType: TypeView)

  /** GET bodies: `{error}`, `{valid: false, error}` and `{valid, voucher}`. */
  datatype LookupBody =
    | LookupError(error: string)
    | LookupMissing(error: string)
    | LookupFound(valid: bool, voucher: VoucherView)

  /** The JSON body of a redemption request. */
  datatype RedeemRequest = RedeemRequest(code: Option<string>)

  /** POST bodies: `{error}`, `{error, used_at}` and `{success, message, voucher_type}`. */
  datatype RedeemBody =
    | RedeemError(error: string)
    | AlreadyUsed(error: string, usedAt: Option<string>)
    | Redeemed(message: string, typeName: string, typeValue: int)

  /** The voucher joined with its type, as GET projects it. */
  function View(t: Tables, id: Id): (r: VoucherView)
    requires Consistent(t) && id in t.vouchers
    // the row that the code index names for its code, with its own type's catalogue fields
    ensures r.id == id && r.code in t.codeIndex && t.codeIndex[r.code] == id
    ensures r.code == t.vouchers[id].code && r.status == t.vouchers[id].status && r.usedAt == t.vouchers[id].usedAt
    ensures t.vouchers[id].voucherTypeId in t.voucherTypes
    ensures var vt := t.voucherTypes[t.vouchers[id].voucherTypeId];
      r.voucherType == TypeView(vt.name, vt.value, vt.description)
  {
    var v := t.vouchers[id];
    var vt := t.voucherTypes[v.voucherTypeId];
    VoucherView(id, v.code, v.status, v.usedAt, TypeView(vt.name, vt.value, vt.description))
  }

  /** GET: a read-only lookup; its being a function of the tables is the "no write" guarantee. */
  function Lookup(t: Tables, principal: Option<AuthUser>, code: Option<string>): (r: Reply<LookupBody>)
    requires Consistent(t)
    ensures r.status == 401 <==> principal.None?
    ensures r.status == 400 <==> principal.Some? && !Truthy(code)
    ensures r.status == 404 <==> principal.Some? && Truthy(code) && Upper(code.value) !in t.codeIndex
    ensures r.status == 404 ==> r.body == LookupMissing(MsgNotFound)
    ensures r.status == 200 <==> principal.Some? && Truthy(code) && Upper(code.value) in t.codeIndex
    ensures r.status == 200 ==>
      && r.body.LookupFound?
      && r.body.voucher.code == Upper(code.value)
      && r.body.voucher.id in t.vouchers
      && r.body.voucher.status == t.vouchers[r.body.voucher.id].status
      && (r.body.valid <==> r.body.voucher.status == Active)
  {
    if principal.None? then Reply(401, LookupError(MsgUnauthenticated))
    else if !Truthy(code) then Reply(400, LookupError(MsgCodeRequired))
    else
      var key := Upper(code.value);
      if key !in t.codeIndex then Reply(404, LookupMissing(MsgNotFound))
      else
        var id := t.codeIndex[key];
        Reply(200, LookupFound(t.vouchers[id].status == Active, View(t, id)))
  }

  /** A validator sent a readable body with a non-empty code. */
  predicate CodeGiven(principal: Option<AuthUser>, body: Result<RedeemRequest>) {
    principal.Some? && principal.value.role == Validador && body.Ok? && Truthy(body.value.code)
  }

  /** POST on the tables. */
  ghost function Redemption(t: Tables, principal: Option<AuthUser>, body: Result<RedeemRequest>, now: string, db: DbReply): (o: Step<RedeemBody>)
    requires Consistent(t)
    ensures Consistent(o.tables)
    ensures o.tables.users == t.users && o.tables.payments == t.payments && o.tables.voucherTypes == t.voucherTypes
    ensures o.tables.codeIndex == t.codeIndex && o.tables.nextId == t.nextId
    // the checks, in order, each answer without writing
    ensures o.reply.status == 401 <==> principal.None?
    ensures o.reply.status == 403 <==> principal.Some? && principal.value.role != Validador
    ensures o.reply.status == 400 <==>
      principal.Some? && principal.value.role == Validador && body.Ok? && !Truthy(body.value.code)
    ensures o.reply.status == 404 <==>
      principal.Some? && principal.value.role == Validador && body.Ok? && Truthy(body.value.code) &&
      Upper(body.value.code.value) !in t.codeIndex
    ensures o.reply.status != 200 ==> o.tables == t
    // a used voucher answers 409 with its original time of use
    ensures o.reply.status == 409 <==>
      CodeGiven(principal, body) && Upper(body.value.code.value) in t.codeIndex &&
      t.vouchers[t.codeIndex[Upper(body.value.code.value)]].status == Used
    ensures o.reply.status == 409 ==>
      o.reply.body == AlreadyUsed(MsgAlreadyUsed, t.vouchers[t.codeIndex[Upper(body.value.code.value)]].usedAt)
    // an unreadable body, or a refused update of an active voucher, answers 500
    ensures o.reply.status == 500 <==>
      || (principal.Some? && principal.value.role == Validador && body.Err?)
      || (CodeGiven(principal, body) && Upper(body.value.code.value) in t.codeIndex &&
          t.vouchers[t.codeIndex[Upper(body.value.code.value)]].status == Active && db.DbError?)
    ensures o.reply.status == 500 ==>
      o.reply.body == RedeemError(if body.Err? then MsgInternal else MsgUpdateFailed)
    // success marks exactly that voucher used, now, by the principal
    ensures o.reply.status == 200 <==>
      CodeGiven(principal, body) && Upper(body.value.code.value) in t.codeIndex &&
      t.vouchers[t.codeIndex[Upper(body.value.code.value)]].status == Active && db.DbOk?
    ensures o.reply.status == 200 ==>
      var id := t.codeIndex[Upper(body.value.code.value)];
      var vt := t.voucherTypes[t.vouchers[id].voucherTypeId];
      && o.reply.body == Redeemed(MsgMarkedUsed, vt.name, vt.value)
      && o.tables.vouchers == t.vouchers[id := t.vouchers[id].(status := Used, usedAt := Some(now), validatedBy := Some(principal.value.id))]
  {
    if principal.None? then Step(t, Reply(401, RedeemError(MsgUnauthenticated)))
    else if principal.value.role != Validador then Step(t, Reply(403, RedeemError(MsgForbidden)))
    else if body.Err? then Step(t, Reply(500, RedeemError(MsgInternal)))
    else if !Truthy(body.value.code) then Step(t, Reply(400, RedeemError(MsgCodeRequired)))
    else
      var key := Upper(body.value.code.value);
      if key !in t.codeIndex then Step(t, Reply(404, RedeemError(MsgNotFound)))
      else
        var id := t.codeIndex[key];
        var v := t.vouchers[id];
        if v.status == Used then Step(t, Reply(409, AlreadyUsed(MsgAlreadyUsed, v.usedAt)))
        else if db.DbError? then Step(t, Reply(500, RedeemError(MsgUpdateFailed)))
        else
          var vt := t.voucherTypes[v.voucherTypeId];
          var used := v.(status := Used, usedAt := Some(now), validatedBy := Some(principal.value.id));
          UpdateVoucherConsistent(t, id, used);
          Step(t.(vouchers := t.vouchers[id := used]), Reply(200, Redeemed(MsgMarkedUsed, vt.name, vt.value)))
  }

  /** A voucher already used is never written again, whoever asks and whatever code they send. */
  lemma UsedIsNeverOverwritten(t: Tables, principal: Option<AuthUser>, body: Result<RedeemRequest>, now: string, db: DbReply, id: Id)
    requires Consistent(t)
    requires id in t.vouchers && t.vouchers[id].status == Used
    ensures var o := Redemption(t, principal, body, now, db);
      id in o.tables.vouchers && o.tables.vouchers[id] == t.vouchers[id]
  {
    var o := Redemption(t, principal, body, now, db);
    if o.reply.status == 200 {
      assert t.codeIndex[Upper(body.value.code.value)] != id;
    }
  }

  /** A second redemption of the same code answers 409 with the first redemption's time and changes nothing. */
  lemma SecondRedemptionConflicts(t: Tables, principal: Option<AuthUser>, code: string, now: string,
                                  principal2: Option<AuthUser>, now2: string, db2: DbReply)
    requires Consistent(t)
    requires Redemption(t, principal, Ok(RedeemRequest(Some(code))), now, DbOk).reply.status == 200
    requires principal2.Some? && principal2.value.role == Validador
    ensures var t1 := Redemption(t, principal, Ok(RedeemRequest(Some(code))), now, DbOk).tables;
      Redemption(t1, principal2, Ok(RedeemRequest(Some(code))), now2, db2) ==
        Step(t1, Reply(409, AlreadyUsed(MsgAlreadyUsed, Some(now))))
  {
  }

  /** GET `/api/validar?code=`. */
  method Get(s: Store, principal: Option<AuthUser>, code: Option<string>) returns (r: Reply<LookupBody>)
    requires s.Valid()
    ensures r == Lookup(s.State(), principal, code)
  {
    if principal.None? {
      return Reply(401, LookupError(MsgUnauthenticated));
    }
    if !Truthy(code) {
      return Reply(400, LookupError(MsgCodeRequired));
    }
    var key := Upper(code.value);
    if key !in s.codeIndex {
      return Reply(404, LookupMissing(MsgNotFound));
    }
    var id := s.codeIndex[key];
    r := Reply(200, LookupFound(s.vouchers[id].status == Active, View(s.State(), id)));
  }

  /** POST `/api/validar`. */
  method Post(s: Store, principal: Option<AuthUser>, body: Result<RedeemRequest>, now: string, db: DbReply)
    returns (r: Reply<RedeemBody>)
    requires s.Valid()
    modifies s
    ensures s.Valid()
    ensures var o := Redemption(old(s.State()), principal, body, now, db);
      s.State() == o.tables && r == o.reply
  {
    if principal.None? {
      return Reply(401, RedeemError(MsgUnauthenticated));
    }
    var user := principal.value;
    if user.role != Validador {
      return Reply(403, RedeemError(MsgForbidden));
    }
    if body.Err? {
      return Reply(500, RedeemError(MsgInternal));
    }
    var code := body.value.code;
    if !Truthy(code) {
      return Reply(400, RedeemError(MsgCodeRequired));
    }
    var key := Upper(code.value);
    if key !in s.codeIndex {
      return Reply(404, RedeemError(MsgNotFound));
    }
    var id := s.codeIndex[key];
    var v := s.vouchers[id];
    if v.status == Used {
      return Reply(409, AlreadyUsed(MsgAlreadyUsed, v.usedAt));
    }
    if db.DbError? {
      return Reply(500, RedeemError(MsgUpdateFailed));
    }
    var vt := s.voucherTypes[v.voucherTypeId];
    ghost var o := Redemption(s.State(), principal, body, now, db);
    s.vouchers := s.vouchers[id := v.(status := Used, usedAt := Some(now), validatedBy := Some(user.id))];
    r := Reply(200, Redeemed(MsgMarkedUsed, vt.name, vt.value));
    assert s.State() == o.tables;
  }
}

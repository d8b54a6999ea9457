/**
 * Idempotent issuance of the voucher a payment pays for
 * (src/lib/create-voucher.ts): read the payment's link, return the linked
 * voucher if it exists, otherwise insert an active voucher and link it.
 */
module Issuance {
  import opened Wrappers
  import opened Schema
  import opened Text
  import opened Db

  const MsgCreateFailed := "Erro ao criar voucher"
  const CodeLength: nat := 10

  /** The characters of nanoid's default alphabet (`A-Za-z0-9_-`). */
  predicate IsNanoidChar(c: char) {
    IsUpperLetter(c) || IsLowerLetter(c) || IsDigit(c) || c == '_' || c == '-'
  }

  /** What `nanoid(n)` can return. */
  predicate IsNanoid(s: string, n: nat) {
    |s| == n && forall i :: 0 <= i < |s| ==> IsNanoidChar(s[i])
  }

  /** The characters a voucher code can hold: nanoid's alphabet without lower case. */
  predicate IsCodeChar(c: char) {
    IsUpperLetter(c) || IsDigit(c) || c == '_' || c == '-'
  }

  /** `nanoid(10).toUpperCase()`; the random draw is the parameter. */
  function VoucherCode(candidate: string): (code: string)
    ensures |code| == |candidate|
    ensures IsNanoid(candidate, CodeLength) ==>
      |code| == CodeLength && forall i :: 0 <= i < |code| ==> IsCodeChar(code[i])
    ensures Upper(code) == code
  {
    UpperIdempotent(candidate);
    Upper(candidate)
  }

  /** What issuance returns: the voucher's code and id. */
  datatype VoucherRef = VoucherRef(code: string, id: Id)

  datatype Issued = Issued(tables: Tables, result: Result<VoucherRef>)

  /** The voucher the payment already links to, when that voucher row exists. */
  function ExistingVoucher(t: Tables, paymentId: Id): (r: Option<VoucherRef>)
    ensures r.Some? <==>
      paymentId in t.payments && t.payments[paymentId].voucherId.Some? &&
      t.payments[paymentId].voucherId.value in t.vouchers
    ensures r.Some? ==>
      r.value.id == t.payments[paymentId].voucherId.value && r.value.code == t.vouchers[r.value.id].code
  {
    if paymentId in t.payments && t.payments[paymentId].voucherId.Some? &&
       t.payments[paymentId].voucherId.value in t.vouchers
    then
      var id := t.payments[paymentId].voucherId.value;
      Some(VoucherRef(t.vouchers[id].code, id))
    else None
  }

  /**
   * Whether the database accepts a voucher insert: no reported error, and the
   * row keeps the constraints (unique code, known type, known payment).
   */
  predicate InsertAccepted(t: Tables, v: Voucher, db: DbReply) {
    && db.DbOk?
    && v.code !in t.codeIndex
    && v.voucherTypeId in t.voucherTypes
    && (v.paymentId.Some? ==> v.paymentId.value in t.payments)
  }

  /** The tables after inserting voucher `v` under the next free id. */
  function InsertVoucher(t: Tables, v: Voucher): (t': Tables)
    ensures t'.vouchers == t.vouchers[t.nextId := v] && t'.codeIndex == t.codeIndex[v.code := t.nextId]
    ensures t'.nextId == t.nextId + 1
    ensures t'.users == t.users && t'.voucherTypes == t.voucherTypes && t'.payments == t.payments
  {
    t.(vouchers := t.vouchers[t.nextId := v], codeIndex := t.codeIndex[v.code := t.nextId], nextId := t.nextId + 1)
  }

  /** Inserting a voucher under a fresh id with a fresh code keeps the code index exact. */
  lemma InsertVoucherIndexed(t: Tables, v: Voucher)
    requires CodeIndexed(t) && t.nextId !in t.vouchers && v.code !in t.codeIndex
    ensures CodeIndexed(InsertVoucher(t, v))
  {
  }

  /** The active voucher a payment pays for, before it has an id. */
  function NewPaymentVoucher(paymentId: Id, userId: Id, voucherTypeId: Id, candidate: string): Voucher {
    Voucher(VoucherCode(candidate), voucherTypeId, Some(userId), None, Active, None, Some(paymentId))
  }

  /** Inserting a payment's first voucher and linking the payment to it keeps the tables consistent. */
  lemma InsertLinkedConsistent(t: Tables, paymentId: Id, v: Voucher)
    requires Consistent(t) && ExistingVoucher(t, paymentId).None?
    requires InsertAccepted(t, v, DbOk) && v.paymentId == Some(paymentId)
    requires v.status == Active && v.usedAt.None? && v.validatedBy.None?
    ensures var t1 := InsertVoucher(t, v);
      Consistent(t1.(payments := t1.payments[paymentId := t1.payments[paymentId].(voucherId := Some(t.nextId), status := Received)]))
  {
    var t1 := InsertVoucher(t, v);
    var t' := t1.(payments := t1.payments[paymentId := t1.payments[paymentId].(voucherId := Some(t.nextId), status := Received)]);
    assert t.nextId !in t.vouchers;
    InsertVoucherIndexed(t, v);
    assert CodeIndexed(t');
    InsertLinkedRows(t, paymentId, v);
    InsertLinkedLinks(t, paymentId, v);
  }

  /** The row half: ids stay below the counter, types stay known, the new voucher has no use recorded. */
  lemma InsertLinkedRows(t: Tables, paymentId: Id, v: Voucher)
    requires Allocated(t) && TypesKnown(t) && UseRecorded(t.vouchers) && paymentId in t.payments
    requires v.voucherTypeId in t.voucherTypes && v.status == Active && v.usedAt.None? && v.validatedBy.None?
    ensures var t1 := InsertVoucher(t, v);
      var t' := t1.(payments := t1.payments[paymentId := t1.payments[paymentId].(voucherId := Some(t.nextId), status := Received)]);
      Allocated(t') && TypesKnown(t') && UseRecorded(t'.vouchers)
  {
  }

  /** The link half: the new voucher is the payment's, and no other voucher pointed at that payment. */
  lemma InsertLinkedLinks(t: Tables, paymentId: Id, v: Voucher)
    requires LinkedToPayment(t) && t.nextId !in t.vouchers && paymentId in t.payments
    requires t.payments[paymentId].voucherId.None? || t.payments[paymentId].voucherId.value !in t.vouchers
    requires v.paymentId == Some(paymentId)
    ensures var t1 := InsertVoucher(t, v);
      LinkedToPayment(t1.(payments := t1.payments[paymentId := t1.payments[paymentId].(voucherId := Some(t.nextId), status := Received)]))
  {
  }

  /** `createVoucherForPayment` on the tables. */
  ghost function Issue(t: Tables, paymentId: Id, userId: Id, voucherTypeId: Id, candidate: string, db: DbReply): (o: Issued)
    requires Consistent(t)
    ensures Consistent(o.tables)
    ensures o.tables.users == t.users && o.tables.voucherTypes == t.voucherTypes
    // an existing link short-circuits: the linked voucher comes back and nothing is written
    ensures ExistingVoucher(t, paymentId).Some? ==> o == Issued(t, Ok(ExistingVoucher(t, paymentId).value))
    // a failed insert throws and leaves every table as it was
    ensures o.result.Err? ==> o.tables == t && o.result.message == MsgCreateFailed
    // otherwise the payment ends linked to the returned voucher and RECEIVED
    ensures o.result.Ok? ==>
      paymentId in o.tables.payments && o.tables.payments[paymentId].voucherId == Some(o.result.value.id) &&
      o.result.value.id in o.tables.vouchers && o.tables.vouchers[o.result.value.id].code == o.result.value.code
    // no payment is added or removed; only the issued one changes, and only in its link and status
    ensures o.tables.nextId >= t.nextId
    ensures paymentId !in t.payments ==> o.tables.payments == t.payments
    ensures paymentId in t.payments ==> o.tables.payments == t.payments[paymentId := o.tables.payments[paymentId]]
    ensures paymentId in t.payments ==>
      o.tables.payments[paymentId] == t.payments[paymentId] ||
      (o.result.Ok? && o.tables.payments[paymentId] == t.payments[paymentId].(voucherId := Some(o.result.value.id), status := Received))
  {
    match ExistingVoucher(t, paymentId)
    case Some(found) => Issued(t, Ok(found))
    case None =>
      var v := NewPaymentVoucher(paymentId, userId, voucherTypeId, candidate);
      if !InsertAccepted(t, v, db) then Issued(t, Err(MsgCreateFailed))
      else
        var id := t.nextId;
        var t1 := InsertVoucher(t, v);
        var linked := t1.payments[paymentId].(voucherId := Some(id), status := Received);
        InsertLinkedConsistent(t, paymentId, v);
        Issued(t1.(payments := t1.payments[paymentId := linked]), Ok(VoucherRef(v.code, id)))
  }

  /** A new voucher is active, carries exactly the given type, user and payment, and its code is the upper-cased draw. */
  lemma IssueCreatesActiveVoucher(t: Tables, paymentId: Id, userId: Id, voucherTypeId: Id, candidate: string, db: DbReply)
    requires Consistent(t)
    requires ExistingVoucher(t, paymentId).None?
    requires Issue(t, paymentId, userId, voucherTypeId, candidate, db).result.Ok?
    ensures var o := Issue(t, paymentId, userId, voucherTypeId, candidate, db);
      var id := o.result.value.id;
      && id == t.nextId && id !in t.vouchers
      && o.result.value.code == Upper(candidate)
      && o.tables.vouchers == t.vouchers[id := Voucher(Upper(candidate), voucherTypeId, Some(userId), None, Active, None, Some(paymentId))]
      && o.tables.payments == t.payments[paymentId := t.payments[paymentId].(voucherId := Some(id), status := Received)]
  {
  }

  /** The insert is refused exactly when the database reports an error or a constraint would break. */
  lemma IssueFailsOnlyOnRefusedInsert(t: Tables, paymentId: Id, userId: Id, voucherTypeId: Id, candidate: string, db: DbReply)
    requires Consistent(t)
    ensures Issue(t, paymentId, userId, voucherTypeId, candidate, db).result.Err? <==>
      ExistingVoucher(t, paymentId).None? && !InsertAccepted(t, NewPaymentVoucher(paymentId, userId, voucherTypeId, candidate), db)
  {
  }

  /** Without a linked voucher, an accepted insert issues the next id and leaves the payment linked and RECEIVED. */
  lemma FreshVoucherIssued(t: Tables, paymentId: Id, userId: Id, voucherTypeId: Id, candidate: string)
    requires Consistent(t)
    requires ExistingVoucher(t, paymentId).None?
    requires InsertAccepted(t, NewPaymentVoucher(paymentId, userId, voucherTypeId, candidate), DbOk)
    ensures var o := Issue(t, paymentId, userId, voucherTypeId, candidate, DbOk);
      && o.result == Ok(VoucherRef(Upper(candidate), t.nextId))
      && paymentId in o.tables.payments
      && o.tables.payments[paymentId].voucherId == Some(t.nextId)
      && o.tables.payments[paymentId].status == Received
  {
  }

  /** A link to a voucher row that does not exist does not stop issuance: a new voucher replaces it. */
  lemma DanglingLinkFallsThrough(t: Tables, paymentId: Id, userId: Id, voucherTypeId: Id, candidate: string)
    requires Consistent(t)
    requires paymentId in t.payments && t.payments[paymentId].voucherId.Some?
    requires t.payments[paymentId].voucherId.value !in t.vouchers
    requires InsertAccepted(t, NewPaymentVoucher(paymentId, userId, voucherTypeId, candidate), DbOk)
    ensures var o := Issue(t, paymentId, userId, voucherTypeId, candidate, DbOk);
      o.result == Ok(VoucherRef(Upper(candidate), t.nextId)) &&
      o.tables.payments[paymentId].voucherId == Some(t.nextId)
  {
  }

  /**
   * Issuing twice in sequence for the same payment returns the same voucher,
   * whatever the second draw and database reply, and the second call writes nothing.
   */
  lemma IssueIsIdempotent(t: Tables, paymentId: Id, userId: Id, voucherTypeId: Id, candidate: string, db: DbReply,
                          userId2: Id, voucherTypeId2: Id, candidate2: string, db2: DbReply)
    requires Consistent(t)
    requires Issue(t, paymentId, userId, voucherTypeId, candidate, db).result.Ok?
    ensures var o := Issue(t, paymentId, userId, voucherTypeId, candidate, db);
      Issue(o.tables, paymentId, userId2, voucherTypeId2, candidate2, db2) == o
  {
    var o := Issue(t, paymentId, userId, voucherTypeId, candidate, db);
    assert ExistingVoucher(o.tables, paymentId) == Some(o.result.value);
  }

  /** After a successful issuance the payment has exactly one voucher: the returned one. */
  lemma IssuedVoucherIsTheOnlyOne(t: Tables, paymentId: Id, userId: Id, voucherTypeId: Id, candidate: string, db: DbReply, other: Id)
    requires Consistent(t)
    requires Issue(t, paymentId, userId, voucherTypeId, candidate, db).result.Ok?
    requires other in Issue(t, paymentId, userId, voucherTypeId, candidate, db).tables.vouchers
    requires Issue(t, paymentId, userId, voucherTypeId, candidate, db).tables.vouchers[other].paymentId == Some(paymentId)
    ensures other == Issue(t, paymentId, userId, voucherTypeId, candidate, db).result.value.id
  {
  }

  /** The insert case of issuance, unfolded: the voucher under the next id, the payment linked and RECEIVED. */
  lemma IssueInserts(t: Tables, paymentId: Id, userId: Id, voucherTypeId: Id, candidate: string, db: DbReply)
    requires Consistent(t)
    requires ExistingVoucher(t, paymentId).None?
    requires InsertAccepted(t, NewPaymentVoucher(paymentId, userId, voucherTypeId, candidate), db)
    ensures var v := NewPaymentVoucher(paymentId, userId, voucherTypeId, candidate);
      var o := Issue(t, paymentId, userId, voucherTypeId, candidate, db);
      && o.result == Ok(VoucherRef(v.code, t.nextId))
      && o.tables == t.(vouchers := t.vouchers[t.nextId := v], codeIndex := t.codeIndex[v.code := t.nextId], nextId := t.nextId + 1,
                        payments := t.payments[paymentId := t.payments[paymentId].(voucherId := Some(t.nextId), status := Received)])
  {
  }

  /** The voucher insert on the store: the row under the next id, indexed by its code. */
  method StoreVoucher(s: Store, v: Voucher) returns (id: Id)
    modifies s
    ensures id == old(s.nextId) && s.State() == InsertVoucher(old(s.State()), v)
  {
    id := s.nextId;
    s.vouchers, s.codeIndex, s.nextId := s.vouchers[id := v], s.codeIndex[v.code := id], s.nextId + 1;
  }

  /** The two writes of an accepted issuance: the voucher row under the next id, then the payment's link. */
  method InsertLinked(s: Store, v: Voucher, paymentId: Id)
    requires paymentId in s.payments
    modifies s
    ensures var t := old(s.State());
      s.State() == t.(vouchers := t.vouchers[t.nextId := v], codeIndex := t.codeIndex[v.code := t.nextId], nextId := t.nextId + 1,
                      payments := t.payments[paymentId := t.payments[paymentId].(voucherId := Some(t.nextId), status := Received)])
  {
    var id := s.nextId;
    s.vouchers, s.codeIndex, s.nextId := s.vouchers[id := v], s.codeIndex[v.code := id], s.nextId + 1;
    s.payments := s.payments[paymentId := s.payments[paymentId].(voucherId := Some(id), status := Received)];
  }

  /** `createVoucherForPayment`. */
  method CreateVoucherForPayment(s: Store, paymentId: Id, userId: Id, voucherTypeId: Id, candidate: string, db: DbReply)
    returns (r: Result<VoucherRef>)
    requires s.Valid()
    modifies s
    ensures s.Valid()
    ensures var o := Issue(old(s.State()), paymentId, userId, voucherTypeId, candidate, db);
      s.State() == o.tables && r == o.result
  {
    ghost var o := Issue(s.State(), paymentId, userId, voucherTypeId, candidate, db);
    // Idempotency: an existing link to an existing voucher is returned as is
    if paymentId in s.payments && s.payments[paymentId].voucherId.Some? {
      var existing := s.payments[paymentId].voucherId.value;
      if existing in s.vouchers {
        return Ok(VoucherRef(s.vouchers[existing].code, existing));
      }
    }
    var code := VoucherCode(candidate);
    var v := Voucher(code, voucherTypeId, Some(userId), None, Active, None, Some(paymentId));
    if !InsertAccepted(s.State(), v, db) {
      return Err(MsgCreateFailed);
    }
    IssueInserts(s.State(), paymentId, userId, voucherTypeId, candidate, db);
    var id := s.nextId;
    InsertLinked(s, v, paymentId);
    assert s.State() == o.tables;
    return Ok(VoucherRef(code, id));
  }
}

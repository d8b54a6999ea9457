/**
 * The relational backend as an in-memory store: one map per table, keyed by
 * primary key, plus the index from voucher code to voucher id that the
 * routes' lookups by code go through. Ids come from one counter.
 */
module Db {
  import opened Wrappers
  import opened Schema
  import opened Http

  /** The reply of a database write whose error the caller checks. */
  datatype DbReply = DbOk | DbError(message: string)

  /** The contents of the database at one moment. */
  datatype Tables = Tables(
    users: map<Id, User>,
    voucherTypes: map<Id, VoucherType>,
    payments: map<Id, Payment>,
    vouchers: map<Id, Voucher>,
    codeIndex: map<string, Id>,
    nextId: Id)

  /** A route's effect: the tables afterwards and its reply. */
  datatype Step<+B> = Step(tables: Tables, reply: Reply<B>)

  /** Every id in use is below the counter, so the counter is always fresh. */
  ghost predicate Allocated(t: Tables) {
    && (forall id :: id in t.users ==> id < t.nextId)
    && (forall id :: id in t.voucherTypes ==> id < t.nextId)
    && (forall id :: id in t.payments ==> id < t.nextId)
    && (forall id :: id in t.vouchers ==> id < t.nextId)
  }

  /** Voucher codes are unique and the index maps each code to its voucher. */
  ghost predicate CodeIndexed(t: Tables) {
    && (forall c :: c in t.codeIndex ==> t.codeIndex[c] in t.vouchers && t.vouchers[t.codeIndex[c]].code == c)
    && (forall id :: id in t.vouchers ==> t.vouchers[id].code in t.codeIndex && t.codeIndex[t.vouchers[id].code] == id)
  }

  ghost predicate LoginIdsUnique(users: map<Id, User>) {
    forall a, b :: a in users && b in users && users[a].loginId == users[b].loginId ==> a == b
  }

  /** Payments and vouchers name voucher types of the catalogue (read-only, never deleted). */
  ghost predicate TypesKnown(t: Tables) {
    && (forall id :: id in t.payments ==> t.payments[id].voucherTypeId in t.voucherTypes)
    && (forall id :: id in t.vouchers ==> t.vouchers[id].voucherTypeId in t.voucherTypes)
  }

  /** A voucher issued for a payment is the one that payment links to. */
  ghost predicate LinkedToPayment(t: Tables) {
    forall id :: id in t.vouchers && t.vouchers[id].paymentId.Some? ==>
      t.vouchers[id].paymentId.value in t.payments && t.payments[t.vouchers[id].paymentId.value].voucherId == Some(id)
  }

  /** An active voucher has no use recorded; a used one has both its time and its validator. */
  ghost predicate UseRecorded(vouchers: map<Id, Voucher>) {
    forall id :: id in vouchers ==>
      (vouchers[id].status == Active <==> vouchers[id].usedAt.None?) &&
      (vouchers[id].status == Active <==> vouchers[id].validatedBy.None?)
  }

  ghost predicate Consistent(t: Tables) {
    && Allocated(t)
    && CodeIndexed(t)
    && LoginIdsUnique(t.users)
    && TypesKnown(t)
    && LinkedToPayment(t)
    && UseRecorded(t.vouchers)
  }

  predicate LoginIdInUse(users: map<Id, User>, loginId: string) {
    exists id :: id in users && users[id].loginId == loginId
  }

  /** At most one voucher is ever issued for a given payment. */
  lemma AtMostOneVoucherPerPayment(t: Tables, a: Id, b: Id)
    requires LinkedToPayment(t)
    requires a in t.vouchers && b in t.vouchers
    requires t.vouchers[a].paymentId.Some? && t.vouchers[a].paymentId == t.vouchers[b].paymentId
    ensures a == b
  {
  }

  /** An in-place update of one payment that keeps its link and type. */
  lemma UpdatePaymentConsistent(t: Tables, id: Id, row: Payment)
    requires Consistent(t) && id in t.payments
    requires row.voucherId == t.payments[id].voucherId && row.voucherTypeId == t.payments[id].voucherTypeId
    ensures Consistent(t.(payments := t.payments[id := row]))
  {
  }

  /** An in-place update of one voucher that keeps its code, type and payment, and records its use. */
  lemma UpdateVoucherConsistent(t: Tables, id: Id, row: Voucher)
    requires Consistent(t) && id in t.vouchers
    requires row.code == t.vouchers[id].code && row.voucherTypeId == t.vouchers[id].voucherTypeId
    requires row.paymentId == t.vouchers[id].paymentId
    requires (row.status == Active <==> row.usedAt.None?) && (row.status == Active <==> row.validatedBy.None?)
    ensures Consistent(t.(vouchers := t.vouchers[id := row]))
  {
    var t' := t.(vouchers := t.vouchers[id := row]);
    assert Allocated(t') && TypesKnown(t');
    UpdateVoucherIndexed(t, id, row);
    UpdateVoucherLinked(t, id, row);
    assert UseRecorded(t'.vouchers);
  }

  lemma UpdateVoucherIndexed(t: Tables, id: Id, row: Voucher)
    requires CodeIndexed(t) && id in t.vouchers && row.code == t.vouchers[id].code
    ensures CodeIndexed(t.(vouchers := t.vouchers[id := row]))
  {
  }

  lemma UpdateVoucherLinked(t: Tables, id: Id, row: Voucher)
    requires LinkedToPayment(t) && id in t.vouchers && row.paymentId == t.vouchers[id].paymentId
    ensures LinkedToPayment(t.(vouchers := t.vouchers[id := row]))
  {
  }

  /** The database the routes share. */
  class Store {
    var users: map<Id, User>
    var voucherTypes: map<Id, VoucherType>
    var payments: map<Id, Payment>
    var vouchers: map<Id, Voucher>
    var codeIndex: map<string, Id>
    var nextId: Id

    function State(): Tables
      reads this
    {
      Tables(users, voucherTypes, payments, vouchers, codeIndex, nextId)
    }

    ghost predicate Valid()
      reads this
    {
      Consistent(State())
    }

    /** A database holding only the voucher-type catalogue. */
    constructor (catalogue: map<Id, VoucherType>, firstId: Id)
      requires forall id :: id in catalogue ==> id < firstId
      ensures Valid()
      ensures State() == Tables(map[], catalogue, map[], map[], map[], firstId)
    {
      users, voucherTypes, payments, vouchers, codeIndex, nextId := map[], catalogue, map[], map[], map[], firstId;
    }

    /** An insert into `users`: the row under the next id. */
    method InsertUser(u: User) returns (id: Id)
      modifies this
      ensures id == old(nextId)
      ensures State() == old(State()).(users := old(users)[id := u], nextId := old(nextId) + 1)
    {
      id := nextId;
      users, nextId := users[id := u], nextId + 1;
    }

    /** An insert into `payments`: the row under the next id. */
    method InsertPaymentRow(row: Payment) returns (id: Id)
      modifies this
      ensures id == old(nextId)
      ensures State() == old(State()).(payments := old(payments)[id := row], nextId := old(nextId) + 1)
    {
      id := nextId;
      payments, nextId := payments[id := row], nextId + 1;
    }

    /** An update of payment `id`: its row replaced, nothing else touched. */
    method UpdatePayment(id: Id, row: Payment)
      modifies this
      ensures State() == old(State()).(payments := old(payments)[id := row])
    {
      payments := payments[id := row];
    }
  }
}

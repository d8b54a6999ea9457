/**
 * The payment gateway's notification endpoint
 * (src/app/api/webhooks/asaas/route.ts): a shared-secret check, then
 * confirmation events move the matching payment to CONFIRMED / RECEIVED and
 * issue its voucher. Every reply but the 401 is 200 `{received: true}`.
 */
module AsaasWebhook {
  import opened Wrappers
  import opened Schema
  import opened Http
  import opened Db
  import opened Issuance

  const EventConfirmed := "PAYMENT_CONFIRMED"
  const EventReceived := "PAYMENT_RECEIVED"

  datatype Ack = Acknowledged | Unauthorized(error: string)

  /** The local payments whose gateway id is `gatewayId`. */
  function PaymentsWithGatewayId(payments: map<Id, Payment>, gatewayId: string): set<Id> {
    set id | id in payments && payments[id].gatewayPaymentId == Some(gatewayId)
  }

  predicate IsConfirmationEvent(event: Option<string>) {
    event == Some(EventConfirmed) || event == Some(EventReceived)
  }

  predicate AlreadyProcessed(p: Payment) {
    p.status == Received || p.status == Confirmed
  }

  /** The shared secret is enforced only when one is configured. */
  predicate TokenRejected(configured: Option<string>, header: Option<string>): (r: bool)
    ensures !Truthy(configured) ==> !r
    ensures Truthy(configured) ==> (r <==> header != configured)
  {
    Truthy(configured) && header != configured
  }

  /** The one element of a singleton set. */
  lemma SingletonElement(m: set<Id>, x: Id, y: Id)
    requires |m| == 1 && x in m && y in m
    ensures x == y
  {
    var rest := m - {x};
    assert m == rest + {x};
    assert |rest| == 0;
    assert y !in rest;
  }

  /**
   * The payment a notification targets: `.single()` yields a row only when
   * exactly one payment carries the gateway id.
   */
  ghost function Target(t: Tables, body: WebhookBody): (r: Option<Id>)
    ensures r.Some? <==>
      IsConfirmationEvent(body.event) && Truthy(body.paymentId) && |PaymentsWithGatewayId(t.payments, body.paymentId.value)| == 1
    ensures r.Some? ==> body.paymentId.Some? && r.value in t.payments && PaymentsWithGatewayId(t.payments, body.paymentId.value) == {r.value}
  {
    if IsConfirmationEvent(body.event) && Truthy(body.paymentId) &&
       |PaymentsWithGatewayId(t.payments, body.paymentId.value)| == 1
    then
      var id :| id in PaymentsWithGatewayId(t.payments, body.paymentId.value);
      assert forall y :: y in PaymentsWithGatewayId(t.payments, body.paymentId.value) ==> y == id by {
        forall y | y in PaymentsWithGatewayId(t.payments, body.paymentId.value) ensures y == id {
          SingletonElement(PaymentsWithGatewayId(t.payments, body.paymentId.value), y, id);
        }
      }
      Some(id)
    else None
  }

  /** The status a confirmation event sets. */
  function EventStatus(event: Option<string>): PaymentStatus {
    if event == Some(EventReceived) then Received else Confirmed
  }

  /** The payment row as the update writes it: the event's status, the body, the time. */
  function Marked(p: Payment, body: WebhookBody, now: string): Payment {
    p.(status := EventStatus(body.event), webhookData := Some(body), updatedAt := Some(now))
  }

  /**
   * Processing a confirmation for payment `id`: the row is marked, then the
   * voucher is issued, with the payment's own user and type, only when the
   * row has no voucher link; an issuance failure is swallowed.
   */
  ghost function Process(t: Tables, id: Id, body: WebhookBody, now: string, candidate: string, db: DbReply): (t': Tables)
    requires Consistent(t) && id in t.payments
    ensures Consistent(t')
    ensures t'.users == t.users && t'.voucherTypes == t.voucherTypes
    // only this payment's row changes, and it keeps its gateway id
    ensures id in t'.payments && t'.payments == t.payments[id := t'.payments[id]]
    ensures t'.payments[id].gatewayPaymentId == t.payments[id].gatewayPaymentId
    // it ends processed and holds the body
    ensures AlreadyProcessed(t'.payments[id]) && t'.payments[id].webhookData == Some(body)
    ensures t'.payments[id].status == EventStatus(body.event) || t'.payments[id].status == Received
    // a payment already linked is only marked
    ensures t.payments[id].voucherId.Some? ==> t' == t.(payments := t.payments[id := Marked(t.payments[id], body, now)])
    // an unlinked one goes through issuance for its own user and type
    ensures t.payments[id].voucherId.None? ==>
      var t1 := t.(payments := t.payments[id := Marked(t.payments[id], body, now)]);
      t' == Issue(t1, id, t.payments[id].userId, t.payments[id].voucherTypeId, candidate, db).tables
  {
    var p := t.payments[id];
    UpdatePaymentConsistent(t, id, Marked(p, body, now));
    var t1 := t.(payments := t.payments[id := Marked(p, body, now)]);
    if p.voucherId.None? then
      var t2 := Issue(t1, id, p.userId, p.voucherTypeId, candidate, db).tables;
      UpdateTwice(t.payments, id, Marked(p, body, now), t2.payments[id]);
      t2
    else t1
  }

  /** Writing a key twice keeps the second write. */
  lemma UpdateTwice<K, V>(m: map<K, V>, k: K, a: V, b: V)
    ensures m[k := a][k := b] == m[k := b]
  {
  }

  /** The notification on the tables. */
  ghost function Notification(t: Tables, configured: Option<string>, header: Option<string>, body: Result<WebhookBody>,
                              now: string, candidate: string, db: DbReply): (o: Step<Ack>)
    requires Consistent(t)
    ensures Consistent(o.tables)
    // 401 only for a wrong secret, and then nothing is written
    ensures o.reply.status == 401 <==> TokenRejected(configured, header)
    ensures o.reply.status == 401 ==> o.tables == t
    // every other path, a malformed body included, is acknowledged
    ensures o.reply.status != 401 ==> o.reply == Reply(200, Acknowledged)
    // a write happens only for a confirmation of a known payment not yet processed, and is its processing
    ensures o.tables != t ==>
      && !TokenRejected(configured, header) && body.Ok? && Target(t, body.value).Some?
      && !AlreadyProcessed(t.payments[Target(t, body.value).value])
      && o.tables == Process(t, Target(t, body.value).value, body.value, now, candidate, db)
  {
    if TokenRejected(configured, header) then Step(t, Reply(401, Unauthorized("Unauthorized")))
    else if body.Err? then Step(t, Reply(200, Acknowledged))
    else
      match Target(t, body.value)
      case None => Step(t, Reply(200, Acknowledged))
      case Some(id) =>
        if AlreadyProcessed(t.payments[id]) then Step(t, Reply(200, Acknowledged))
        else Step(Process(t, id, body.value, now, candidate, db), Reply(200, Acknowledged))
  }

  /**
   * Any payment not yet processed, FAILED included, is processed: the reply
   * is the acknowledgement and the tables are its processing.
   */
  lemma UnprocessedPaymentIsProcessed(t: Tables, configured: Option<string>, header: Option<string>, body: WebhookBody,
                                      now: string, candidate: string, db: DbReply)
    requires Consistent(t)
    requires !TokenRejected(configured, header)
    requires Target(t, body).Some? && !AlreadyProcessed(t.payments[Target(t, body).value])
    ensures var o := Notification(t, configured, header, Ok(body), now, candidate, db);
      o == Step(Process(t, Target(t, body).value, body, now, candidate, db), Reply(200, Acknowledged))
  {
  }

  /** A FAILED payment is revived by a confirmation event: it ends CONFIRMED or RECEIVED. */
  lemma FailedPaymentIsRevived(t: Tables, configured: Option<string>, header: Option<string>, body: WebhookBody,
                               now: string, candidate: string, db: DbReply)
    requires Consistent(t)
    requires !TokenRejected(configured, header)
    requires Target(t, body).Some? && t.payments[Target(t, body).value].status == Failed
    ensures var o := Notification(t, configured, header, Ok(body), now, candidate, db);
      var id := Target(t, body).value;
      o.tables.payments[id].status in {Confirmed, Received}
  {
  }

  /**
   * Replaying a notification is a no-op: delivering the same body a second
   * time, whatever the clock, draw and database reply, writes nothing more.
   */
  lemma ReplayIsNoOp(t: Tables, configured: Option<string>, header: Option<string>, body: Result<WebhookBody>,
                     now: string, candidate: string, db: DbReply, now2: string, candidate2: string, db2: DbReply)
    requires Consistent(t)
    ensures var t1 := Notification(t, configured, header, body, now, candidate, db).tables;
      Notification(t1, configured, header, body, now2, candidate2, db2).tables == t1
  {
    var o := Notification(t, configured, header, body, now, candidate, db);
    if o.tables != t {
      var id := Target(t, body.value).value;
      var g := body.value.paymentId.value;
      SameGatewayIds(t.payments, id, o.tables.payments[id], g);
      assert o.tables.payments == t.payments[id := o.tables.payments[id]];
      assert Target(o.tables, body.value) == Some(id);
      assert AlreadyProcessed(o.tables.payments[id]);
    }
  }

  /** Rewriting one row without touching its gateway id leaves every gateway id's payments as they were. */
  lemma SameGatewayIds(m: map<Id, Payment>, id: Id, row: Payment, g: string)
    requires id in m && row.gatewayPaymentId == m[id].gatewayPaymentId
    ensures PaymentsWithGatewayId(m[id := row], g) == PaymentsWithGatewayId(m, g)
  {
  }

  /** The processing step on the store. */
  method MarkAndIssue(s: Store, id: Id, body: WebhookBody, now: string, candidate: string, db: DbReply)
    requires s.Valid() && id in s.payments
    modifies s
    ensures s.Valid()
    ensures s.State() == Process(old(s.State()), id, body, now, candidate, db)
  {
    var p := s.payments[id];
    UpdatePaymentConsistent(s.State(), id, Marked(p, body, now));
    s.UpdatePayment(id, Marked(p, body, now));
    if p.voucherId.None? {
      // issuance errors are logged and swallowed
      var _ := CreateVoucherForPayment(s, id, p.userId, p.voucherTypeId, candidate, db);
    }
  }

  /** POST `/api/webhooks/asaas`. */
  method Post(s: Store, configured: Option<string>, header: Option<string>, body: Result<WebhookBody>,
              now: string, candidate: string, db: DbReply) returns (r: Reply<Ack>)
    requires s.Valid()
    modifies s
    ensures s.Valid()
    ensures var o := Notification(old(s.State()), configured, header, body, now, candidate, db);
      s.State() == o.tables && r == o.reply
  {
    if TokenRejected(configured, header) {
      return Reply(401, Unauthorized("Unauthorized"));
    }
    if body.Err? {
      // a body that fails to parse is caught and acknowledged
      return Reply(200, Acknowledged);
    }
    var event := body.value.event;
    if !IsConfirmationEvent(event) {
      return Reply(200, Acknowledged);
    }
    if !Truthy(body.value.paymentId) {
      return Reply(200, Acknowledged);
    }
    var matches := PaymentsWithGatewayId(s.payments, body.value.paymentId.value);
    if |matches| != 1 {
      return Reply(200, Acknowledged);
    }
    var id :| id in matches;
    ghost var target := Target(s.State(), body.value);
    SingletonElement(matches, id, target.value);
    if AlreadyProcessed(s.payments[id]) {
      return Reply(200, Acknowledged);
    }
    MarkAndIssue(s, id, body.value, now, candidate, db);
    r := Reply(200, Acknowledged);
  }
}

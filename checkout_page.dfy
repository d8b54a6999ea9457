/**
 * The checkout page's logic (src/app/checkout/page.tsx): the checks and
 * normalisation before a payment request is sent, and the PIX status poll,
 * one tick every five seconds for at most 120 ticks.
 */
module CheckoutPage {
  import opened Wrappers
  import opened Schema
  import opened Text
  import Payments

  const MsgFillIn := "Preencha seu nome e CPF"
  const MsgExpired := "Tempo de pagamento expirado. Tente novamente."
  const MsgFailed := "Pagamento falhou. Tente novamente."
  const MaxPolls: nat := 120

  /** The pre-submit check of both payment forms: a blank CPF or name stops the request. */
  function PreSubmitError(cpf: string, customerName: string): (r: Option<string>)
    ensures r.Some? ==> r.value == MsgFillIn
    ensures r.Some? <==> AllSpace(cpf) || AllSpace(customerName)
  {
    TrimEmptyIffAllSpace(cpf);
    TrimEmptyIffAllSpace(customerName);
    if Trim(cpf) == "" || Trim(customerName) == "" then Some(MsgFillIn) else None
  }

  /** The body `handlePixPayment` sends. */
  function PixRequest(voucherTypeId: Option<Id>, cpf: string, customerName: string, userEmail: Option<string>): (r: Payments.PaymentRequest)
    ensures r.billingType == Some("PIX") && r.creditCard.None? && r.holderInfo.None?
    ensures r.cpf.Some? && forall i :: 0 <= i < |r.cpf.value| ==> IsDigit(r.cpf.value[i])
    // the CPF is the typed one with everything but its digits removed; the rest goes as given
    ensures r.cpf == Some(Digits(cpf)) && Digits(r.cpf.value) == r.cpf.value
    ensures r.voucherTypeId == voucherTypeId && r.name == Some(customerName) && r.email == userEmail
  {
    DigitsIdempotent(cpf);
    Payments.PaymentRequest(voucherTypeId, Some("PIX"), Some(Digits(cpf)), Some(customerName), userEmail, None, None)
  }

  /** The card form's fields. */
  datatype CardForm = CardForm(
    number: string, expMonth: string, expYear: string, cvv: string, holderName: string,
    email: string, postalCode: string, addressNumber: string, phone: string)

  /** The body `handleCardPayment` sends. */
  function CardRequest(voucherTypeId: Option<Id>, cpf: string, customerName: string, userEmail: Option<string>,
                       form: CardForm): (r: Payments.PaymentRequest)
    ensures r.billingType == Some("CREDIT_CARD") && r.creditCard.Some? && r.holderInfo.Some?
    ensures r.voucherTypeId == voucherTypeId && r.name == Some(customerName) && r.holderInfo.value.name == customerName
    // the holder's name goes upper-cased, the numbers with their formatting removed
    ensures r.creditCard.value.holderName == Upper(form.holderName) && r.creditCard.value.number == Digits(form.number)
    ensures r.cpf == Some(Digits(cpf))
    ensures r.holderInfo.value.postalCode == Digits(form.postalCode) && r.holderInfo.value.phone == Digits(form.phone)
    ensures r.creditCard.value.expiryMonth == form.expMonth && r.creditCard.value.expiryYear == form.expYear
    ensures r.creditCard.value.ccv == form.cvv && r.holderInfo.value.addressNumber == form.addressNumber
    ensures Upper(r.creditCard.value.holderName) == r.creditCard.value.holderName
    ensures Digits(r.creditCard.value.number) == r.creditCard.value.number
    ensures r.cpf.Some? && Digits(r.cpf.value) == r.cpf.value && r.holderInfo.value.cpfCnpj == r.cpf.value
    ensures Digits(r.holderInfo.value.postalCode) == r.holderInfo.value.postalCode
    ensures Digits(r.holderInfo.value.phone) == r.holderInfo.value.phone
    // the card email wins over the account's, and the holder's email is never missing
    ensures r.email == OrElse(Some(form.email), userEmail)
    ensures r.holderInfo.value.email == OrElse(OrElse(Some(form.email), userEmail), Some("")).value
  {
    UpperIdempotent(form.holderName);
    DigitsIdempotent(form.number);
    DigitsIdempotent(cpf);
    DigitsIdempotent(form.postalCode);
    DigitsIdempotent(form.phone);
    var email := OrElse(Some(form.email), userEmail);
    var card := Payments.CreditCard(Upper(form.holderName), Digits(form.number), form.expMonth, form.expYear, form.cvv);
    var holder := Payments.HolderInfo(customerName, OrElse(email, Some("")).value, Digits(cpf), Digits(form.postalCode),
                                      form.addressNumber, Digits(form.phone));
    Payments.PaymentRequest(voucherTypeId, Some("CREDIT_CARD"), Some(Digits(cpf)), Some(customerName), email, Some(card), Some(holder))
  }

  /**
   * A form past the pre-submit check can still be refused by the server: it
   * sends only the CPF's digits, and the server wants them not empty.
   */
  lemma PixRequestCompleteIff(voucherTypeId: Option<Id>, cpf: string, customerName: string, userEmail: Option<string>)
    ensures Payments.Complete(PixRequest(voucherTypeId, cpf, customerName, userEmail)) <==>
      voucherTypeId.Some? && Digits(cpf) != ""
  {
  }

  /** A CPF of letters passes the page's check and is refused by the server. */
  lemma LettersOnlyCpfPassesPageCheck(voucherTypeId: Id)
    ensures PreSubmitError("abc", "Ana").None?
    ensures !Payments.Complete(PixRequest(Some(voucherTypeId), "abc", "Ana", None))
  {
    assert !IsSpace("abc"[0]) && !IsSpace("Ana"[0]);
    assert Digits("abc") == "" by {
      assert Digits("c") == "";
      assert "abc"[1..] == "bc" && "bc"[1..] == "c";
    }
  }

  /** What one status request returns: the payment's status and voucher code, or a failure. */
  datatype PollReply = Fetched(status: Option<string>, voucherCode: Option<string>) | FetchFailed

  /** The poll's state: the tick counter, the polling flag, the error shown and the page navigated to. */
  datatype PollState = PollState(pollCount: nat, polling: bool, error: string, navigateTo: Option<string>)

  /** The state when a PIX charge has just been opened. */
  const Started := PollState(0, true, "", None)

  /** One tick of the interval, on a poll still running. */
  function Tick(st: PollState, reply: PollReply): (st': PollState)
    requires st.polling
    ensures st'.pollCount == st.pollCount + 1
    // past the limit the poll stops with the expiry message
    ensures st'.pollCount > MaxPolls ==> st' == st.(pollCount := st.pollCount + 1, polling := false, error := MsgExpired)
    // a failed payment stops the poll with its message; only that and expiry change the error
    ensures st'.pollCount <= MaxPolls && reply.Fetched? && reply.status == Some("FAILED") ==> st'.error == MsgFailed
    ensures st'.error != st.error ==> st'.error == MsgExpired || st'.error == MsgFailed
    ensures st'.pollCount <= MaxPolls && (reply.FetchFailed? || reply.status != Some("FAILED")) ==> st'.error == st.error
    // a paid payment stops the poll, and the page moves on only with a voucher code
    ensures (st'.pollCount <= MaxPolls && reply.Fetched? && reply.status in {Some("CONFIRMED"), Some("RECEIVED")} &&
             Truthy(reply.voucherCode)) ==> st'.navigateTo == Some("/voucher/" + reply.voucherCode.value)
    ensures st'.navigateTo != st.navigateTo ==>
      reply.Fetched? && Truthy(reply.voucherCode) && st'.navigateTo == Some("/voucher/" + reply.voucherCode.value)
    // the poll keeps running only on a status that is neither paid nor failed, or a failed request
    ensures st'.polling <==>
      st'.pollCount <= MaxPolls &&
      (reply.FetchFailed? || reply.status !in {Some("CONFIRMED"), Some("RECEIVED"), Some("FAILED")})
  {
    var count := st.pollCount + 1;
    if count > MaxPolls then st.(pollCount := count, polling := false, error := MsgExpired)
    else
      match reply
      case FetchFailed => st.(pollCount := count)
      case Fetched(status, code) =>
        if status == Some("CONFIRMED") || status == Some("RECEIVED") then
          st.(pollCount := count, polling := false,
              navigateTo := if Truthy(code) then Some("/voucher/" + code.value) else st.navigateTo)
        else if status == Some("FAILED") then st.(pollCount := count, polling := false, error := MsgFailed)
        else st.(pollCount := count)
  }

  /** The ticks the interval fires with these replies; once cleared it fires no more. */
  function Ticks(st: PollState, replies: seq<PollReply>): PollState
    decreases |replies|
  {
    if replies == [] || !st.polling then st else Ticks(Tick(st, replies[0]), replies[1..])
  }

  /** A stopped poll stays stopped. */
  lemma StoppedStays(st: PollState, replies: seq<PollReply>)
    requires !st.polling
    ensures Ticks(st, replies) == st
  {
  }

  /**
   * The counter bounds the poll: after enough ticks to pass the limit the
   * poll has stopped, whatever the replies.
   */
  lemma {:induction false} TicksStopPolling(st: PollState, replies: seq<PollReply>)
    requires st.pollCount <= MaxPolls
    requires |replies| > MaxPolls - st.pollCount
    ensures !Ticks(st, replies).polling
    decreases |replies|
  {
    if st.polling {
      var next := Tick(st, replies[0]);
      if next.polling {
        TicksStopPolling(next, replies[1..]);
      } else {
        StoppedStays(next, replies[1..]);
      }
    }
  }

  /** A poll started fresh stops within 121 ticks. */
  lemma PollStopsWithin121Ticks(replies: seq<PollReply>)
    requires |replies| >= MaxPolls + 1
    ensures !Ticks(Started, replies).polling
  {
    TicksStopPolling(Started, replies);
  }

  /** A running poll has fetched once per tick and never more than 120 times. */
  lemma {:induction false} RunningPollBounded(st: PollState, replies: seq<PollReply>)
    requires st.pollCount <= MaxPolls
    ensures Ticks(st, replies).pollCount <= st.pollCount + |replies|
    ensures Ticks(st, replies).polling ==> Ticks(st, replies).pollCount <= MaxPolls
    decreases |replies|
  {
    if replies != [] && st.polling {
      var next := Tick(st, replies[0]);
      if next.pollCount <= MaxPolls {
        RunningPollBounded(next, replies[1..]);
      } else {
        StoppedStays(next, replies[1..]);
      }
    }
  }

  /** The poll as the page runs it: the interval's callback and its state. */
  class PixPolling {
    var pollCount: nat
    var polling: bool
    var error: string
    var navigateTo: Option<string>

    function State(): PollState
      reads this
    {
      PollState(pollCount, polling, error, navigateTo)
    }

    /** Polling starts once the PIX charge is open. */
    constructor ()
      ensures State() == Started
    {
      pollCount, polling, error, navigateTo := 0, true, "", None;
    }

    /** The interval's callback; `fetched` says whether it sent a status request. */
    method OnTick(reply: PollReply) returns (fetched: bool)
      requires polling
      modifies this
      ensures State() == Tick(old(State()), reply)
      ensures fetched <==> old(pollCount) < MaxPolls
    {
      pollCount := pollCount + 1;
      if pollCount > MaxPolls {
        polling := false;
        error := MsgExpired;
        return false;
      }
      fetched := true;
      match reply {
        case FetchFailed =>
          // poll errors are ignored; the next tick retries
        case Fetched(status, code) =>
          if status == Some("CONFIRMED") || status == Some("RECEIVED") {
            polling := false;
            if Truthy(code) {
              navigateTo := Some("/voucher/" + code.value);
            }
          } else if status == Some("FAILED") {
            polling := false;
            error := MsgFailed;
          }
      }
    }

    /** The interval firing with each reply in turn until it is cleared. */
    method Run(replies: seq<PollReply>)
      modifies this
      ensures State() == Ticks(old(State()), replies)
    {
      var i := 0;
      while i < |replies| && polling
        invariant 0 <= i <= |replies|
        invariant Ticks(State(), replies[i..]) == Ticks(old(State()), replies)
      {
        var _ := OnTick(replies[i]);
        assert replies[i..][1..] == replies[i + 1..];
        i := i + 1;
      }
      if i < |replies| {
        StoppedStays(State(), replies[i..]);
      }
    }
  }
}

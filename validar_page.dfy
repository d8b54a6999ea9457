/**
 * The validator's page (src/app/validar/page.tsx): it looks a typed or
 * scanned code up, shows one of three panels, and after a confirmed
 * redemption marks its own copy of the voucher as used.
 */
module ValidarPage {
  import opened Wrappers
  import opened Schema
  import opened Text
  import opened Http
  import opened Db
  import opened ValidarRoute

  const MsgNotFound := "Voucher não encontrado"
  const MsgLookupFailed := "Erro ao validar. Tente novamente."
  const MsgNotInSystem := "Voucher não encontrado no sistema."
  const TitleConfirmed := "VOUCHER UTILIZADO"
  const TitleAlreadyUsed := "JA UTILIZADO"

  /** The page's copy of a lookup: the `valid` flag, the voucher, or an error text. */
  datatype ValidationResult = ValidationResult(valid: bool, voucher: Option<VoucherView>, error: Option<string>)

  /** The three result panels. */
  datatype Panel = ValidPanel | UsedPanel(title: string) | InvalidPanel(message: string)

  /** What `validateCode` keeps of the lookup's reply; None is a request that threw. */
  function ResultOf(reply: Option<Reply<LookupBody>>): (r: ValidationResult)
    // only a successful lookup brings a voucher, and then its flag and voucher as sent
    ensures r.voucher.Some? <==> reply.Some? && 200 <= reply.value.status < 300 && reply.value.body.LookupFound?
    ensures r.voucher.Some? ==> r == ValidationResult(reply.value.body.valid, Some(reply.value.body.voucher), None)
    ensures r.voucher.None? ==> !r.valid && r.error.Some?
    // a failed reply shows its error, or the default text when it has none
    ensures reply.Some? && !(200 <= reply.value.status < 300) && !reply.value.body.LookupFound? ==>
      r.error == OrElse(Some(reply.value.body.error), Some(MsgNotFound))
    ensures reply.None? ==> r.error == Some(MsgLookupFailed)
  {
    match reply
    case None => ValidationResult(false, None, Some(MsgLookupFailed))
    case Some(rep) =>
      var error := match rep.body
        case LookupError(e) => e
        case LookupMissing(e) => e
        case LookupFound(_, _) => "";
      if !(200 <= rep.status < 300) then
        ValidationResult(false, None, Some(OrElse(Some(error), Some(MsgNotFound)).value))
      else
        // a successful reply is kept as it came
        match rep.body
        case LookupFound(valid, v) => ValidationResult(valid, Some(v), None)
        case _ => ValidationResult(false, None, Some(error))
  }

  /** The panel the page renders for a result. */
  function Classify(result: ValidationResult, confirmed: bool): (p: Panel)
    // "VALIDO" only for a valid, active voucher whose use is not yet confirmed
    ensures p == ValidPanel <==>
      result.valid && result.voucher.Some? && result.voucher.value.status == Active && !confirmed
    ensures p.UsedPanel? <==>
      p != ValidPanel && ((result.voucher.Some? && result.voucher.value.status == Used) || confirmed)
    ensures p.UsedPanel? ==> (p.title == TitleConfirmed <==> confirmed)
    ensures p.InvalidPanel? ==> p.message == OrElse(result.error, Some(MsgNotInSystem)).value
  {
    if result.valid && result.voucher.Some? && result.voucher.value.status == Active && !confirmed then ValidPanel
    else if (result.voucher.Some? && result.voucher.value.status == Used) || confirmed then
      UsedPanel(if confirmed then TitleConfirmed else TitleAlreadyUsed)
    else InvalidPanel(OrElse(result.error, Some(MsgNotInSystem)).value)
  }

  /** A used voucher is never shown as valid, whatever its `valid` flag says. */
  lemma UsedNeverShownValid(result: ValidationResult, confirmed: bool)
    requires result.voucher.Some? && result.voucher.value.status == Used
    ensures Classify(result, confirmed) == UsedPanel(if confirmed then TitleConfirmed else TitleAlreadyUsed)
  {
  }

  /**
   * Against the route: a fresh lookup of a signed-in validator's code shows
   * "VALIDO" exactly when the stored voucher is active, and "JA UTILIZADO"
   * exactly when it is used.
   */
  lemma LookupPanelMatchesStore(t: Tables, principal: AuthUser, code: string)
    requires Consistent(t) && code != ""
    ensures var r := ResultOf(Some(Lookup(t, Some(principal), Some(code))));
      var key := Upper(code);
      && (Classify(r, false) == ValidPanel <==> key in t.codeIndex && t.vouchers[t.codeIndex[key]].status == Active)
      && (Classify(r, false) == UsedPanel(TitleAlreadyUsed) <==> key in t.codeIndex && t.vouchers[t.codeIndex[key]].status == Used)
  {
    var key := Upper(code);
    var reply := Lookup(t, Some(principal), Some(code));
    if key in t.codeIndex {
      assert reply.status == 200;
      var id := t.codeIndex[key];
      assert t.vouchers[id].code == key;
      assert reply.body.voucher.id == id by {
        assert reply.body.voucher.code == key;
        assert t.vouchers[reply.body.voucher.id].code == key;
      }
    } else {
      assert reply.status == 404;
    }
  }

  /** The local update after a confirmed use: not valid any more, the voucher used now. */
  function MarkedUsed(result: ValidationResult, now: string): (r: ValidationResult)
    ensures result.voucher.None? ==> r == result
    ensures result.voucher.Some? ==>
      && !r.valid && r.error == result.error && r.voucher.Some?
      && r.voucher.value == result.voucher.value.(status := Used, usedAt := Some(now))
  {
    if result.voucher.Some? then
      result.(valid := false, voucher := Some(result.voucher.value.(status := Used, usedAt := Some(now))))
    else result
  }

  /** Once confirmed, the page shows the "VOUCHER UTILIZADO" panel. */
  lemma ConfirmedShowsUsedPanel(result: ValidationResult, now: string)
    requires result.voucher.Some?
    ensures Classify(MarkedUsed(result, now), true) == UsedPanel(TitleConfirmed)
  {
  }

  /** The page's state. */
  class Page {
    var code: string
    var result: Option<ValidationResult>
    var confirmed: bool

    constructor ()
      ensures code == "" && result.None? && !confirmed
    {
      code, result, confirmed := "", None, false;
    }

    /** The panel on screen, if any. */
    function Shown(): Option<Panel>
      reads this
    {
      if result.Some? then Some(Classify(result.value, confirmed)) else None
    }

    /**
     * `validateCode`: the input trimmed then upper-cased; nothing happens when
     * that is empty. `reply` is the lookup's reply for the normalised code.
     */
    method ValidateCode(input: string, reply: Option<Reply<LookupBody>>)
      modifies this
      ensures Trim(input) == "" ==> code == old(code) && result == old(result) && confirmed == old(confirmed)
      ensures Trim(input) != "" ==>
        code == Upper(Trim(input)) && result == Some(ResultOf(reply)) && !confirmed
    {
      var trimmed := Upper(Trim(input));
      if trimmed == "" {
        return;
      }
      code := trimmed;
      result := None;
      confirmed := false;
      result := Some(ResultOf(reply));
    }

    /**
     * `confirmUse`: without a voucher code nothing happens; `accepted` is
     * whether the redemption request succeeded, `now` the local clock.
     */
    method ConfirmUse(accepted: bool, now: string)
      modifies this
      ensures code == old(code)
      ensures (old(result).Some? && old(result).value.voucher.Some? && old(result).value.voucher.value.code != "" && accepted) ==>
        confirmed && result == Some(MarkedUsed(old(result).value, now)) && Shown() == Some(UsedPanel(TitleConfirmed))
      ensures !(old(result).Some? && old(result).value.voucher.Some? && old(result).value.voucher.value.code != "" && accepted) ==>
        confirmed == old(confirmed) && result == old(result)
    {
      if result.None? || result.value.voucher.None? || result.value.voucher.value.code == "" {
        return;
      }
      if !accepted {
        // the failure is only reported in an alert
        return;
      }
      confirmed := true;
      result := Some(MarkedUsed(result.value, now));
      ConfirmedShowsUsedPanel(old(result).value, now);
    }

    /** `reset`: back to an empty form. */
    method Reset()
      modifies this
      ensures code == "" && result.None? && !confirmed && Shown().None?
    {
      code := "";
      result := None;
      confirmed := false;
    }
  }
}

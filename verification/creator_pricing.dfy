/** Prices shown on the creator's payment screen and the client-side rules
    of the manual payment check (`getPrice`, `getDollarPrice` and
    `handleManualPayment` of the creator page). */
module CreatorPricing {
  import opened Wrappers
  import opened JsText
  import opened CreatorDraft

  /** The price of a template in Kenyan shillings. */
  function PriceKes(t: Template): (kes: nat)
    ensures t == PoemCard ==> kes == 500
    ensures t == LoveLetter ==> kes == 350
    ensures kes >= 250
    ensures kes == 250 <==> !IsPremium(t)
  {
    match t
    case PoemCard => 500
    case LoveLetter => 350
    case _ => 250
  }

  /** The PayPal price in US dollars for a shilling price: the two premium
      prices have their own rate, any other price costs two dollars. */
  function DollarPrice(kes: int): (usd: nat)
    ensures kes == 500 ==> usd == 5
    ensures kes == 350 ==> usd == 3
    ensures usd >= 2
    ensures usd == 2 <==> kes != 500 && kes != 350
  {
    if kes == 500 then 5
    else if kes == 350 then 3
    else 2
  }

  /** The dollar price of each template, and that the dollar price ranks the
      templates the same way the shilling price does. */
  lemma DollarPriceFollowsShillingPrice(a: Template, b: Template)
    ensures DollarPrice(PriceKes(PoemCard)) == 5
    ensures DollarPrice(PriceKes(LoveLetter)) == 3
    ensures DollarPrice(PriceKes(GiftBox)) == 2
    ensures PriceKes(a) <= PriceKes(b) <==> DollarPrice(PriceKes(a)) <= DollarPrice(PriceKes(b))
    ensures IsPremium(a) <==> DollarPrice(PriceKes(a)) > 2
  {
  }

  /** The shortest code, in UTF-16 code units, that is sent for checking. */
  const MinCodeLength := 8

  const InvalidCodeText := "Please enter a valid M-Pesa confirmation code"
  const ConnectionFailedText := "Failed to connect to server"

  /** The payment endpoint's reply, or `PaymentUnreachable` when the request
      or the reading of its body failed. */
  datatype PaymentReply = PaymentReply(success: bool, message: string) | PaymentUnreachable

  /** One run of the payment handler: whether a request was issued, the
      resulting paid flag, and the alert shown, if any. */
  datatype PaymentStep = PaymentStep(requested: bool, paid: bool, alert: Option<string>)

  /** The payment handler. A missing or short code is refused before any
      request; otherwise `reply` is the server's answer to the request. Only a
      successful reply sets the paid flag, and nothing clears it. */
  function HandleManualPayment(paid: bool, code: string, reply: PaymentReply): (r: PaymentStep)
    ensures r.requested <==> Utf16Length(code) >= MinCodeLength
    ensures r.paid <==> paid || (r.requested && reply.PaymentReply? && reply.success)
    ensures !r.requested ==> r.alert == Some(InvalidCodeText)
    ensures r.alert.None? <==> r.requested && reply.PaymentReply? && reply.success
  {
    if code == "" || Utf16Length(code) < MinCodeLength then
      PaymentStep(false, paid, Some(InvalidCodeText))
    else
      match reply
      case PaymentUnreachable => PaymentStep(true, paid, Some(ConnectionFailedText))
      case PaymentReply(success, message) =>
        if success then PaymentStep(true, true, None)
        else PaymentStep(true, paid, Some(message))
  }

  /** The verify button is enabled while no check is running and the code
      has a non-whitespace character. */
  predicate VerifyEnabled(verifying: bool, code: string)
  {
    !verifying && Trim(code) != ""
  }

  /** One press of the verify button with a code and the server's reply. */
  datatype Attempt = Attempt(code: string, reply: PaymentReply)

  /** An attempt the server accepts: the button was enabled, the code passed
      the length check and the reply reports success. */
  predicate Accepted(a: Attempt)
  {
    && VerifyEnabled(false, a.code)
    && Utf16Length(a.code) >= MinCodeLength
    && a.reply.PaymentReply? && a.reply.success
  }

  /** The paid flag after one press of the verify button; a press on a
      disabled button does nothing. */
  function PressVerify(paid: bool, a: Attempt): (r: bool)
    ensures r <==> paid || Accepted(a)
  {
    if VerifyEnabled(false, a.code) then HandleManualPayment(paid, a.code, a.reply).paid else paid
  }

  /** The paid flag after a series of button presses. */
  function PaidAfter(paid: bool, attempts: seq<Attempt>): bool
    decreases |attempts|
  {
    if attempts == [] then paid
    else PaidAfter(PressVerify(paid, attempts[0]), attempts[1..])
  }

  /** Once paid, always paid. */
  lemma {:induction false} PaidIsStable(attempts: seq<Attempt>)
    ensures PaidAfter(true, attempts)
    decreases |attempts|
  {
    if attempts != [] {
      PaidIsStable(attempts[1..]);
    }
  }

  /** Starting unpaid, the page ends up paid exactly when one of the presses
      was accepted. */
  lemma {:induction false} PaidIffSomeAttemptAccepted(attempts: seq<Attempt>)
    ensures PaidAfter(false, attempts) <==> exists i | 0 <= i < |attempts| :: Accepted(attempts[i])
    decreases |attempts|
  {
    if attempts != [] {
      var rest := attempts[1..];
      if Accepted(attempts[0]) {
        PaidIsStable(rest);
      } else {
        PaidIffSomeAttemptAccepted(rest);
        if exists i | 0 <= i < |attempts| :: Accepted(attempts[i]) {
          var i :| 0 <= i < |attempts| && Accepted(attempts[i]);
          assert Accepted(rest[i - 1]);
        }
        if exists j | 0 <= j < |rest| :: Accepted(rest[j]) {
          var j :| 0 <= j < |rest| && Accepted(rest[j]);
          assert attempts[j + 1] == rest[j];
        }
      }
    }
  }

  /** A press of the enabled button reaches the server exactly when the code
      has a non-whitespace character and at least eight code units. */
  lemma RequestedCodeIsPlausible(code: string, reply: PaymentReply)
    ensures VerifyEnabled(false, code) && HandleManualPayment(false, code, reply).requested
            <==> !Blank(code) && Utf16Length(code) >= 8
  {
    TrimEmptyIffBlank(code);
  }
}

/** The payment request and response records and the request validator the payment
    handler runs before processing (models/request.go). */
module Request {
  import opened Wrappers
  import Records
  import Strconv
  import Time
  import Utils

  datatype PaymentRequest = PaymentRequest(
    cardNumber: string,
    expMonth: int,
    expYear: int,
    amount: real,
    currency: string,
    cvv: int)

  /** What a lookup returns: never the raw card number or the CVV. */
  datatype PaymentResponse = PaymentResponse(
    paymentId: string,
    maskedCardNumber: string,
    amount: real,
    currency: string,
    status: Records.Status)

  /** The validator's errors, listed in the order the checks run. */
  datatype RequestError = InvalidCardNumber | ExpiredCard | InvalidAmount | UnsupportedCurrency | InvalidCvv
  {
    function Message(): string
    {
      match this
      case InvalidCardNumber => "invalid card number"
      case ExpiredCard => "expired card"
      case InvalidAmount => "invalid amount"
      case UnsupportedCurrency => "unsupported currency"
      case InvalidCvv => "invalid CVV"
    }

    /** Position of the check reporting this error in the validator's order. */
    function Rank(): nat
    {
      match this
      case InvalidCardNumber => 0
      case ExpiredCard => 1
      case InvalidAmount => 2
      case UnsupportedCurrency => 3
      case InvalidCvv => 4
    }
  }

  const MaxAmount: real := 1000.0

  /** `time.Date(year, month, 1, 0, 0, 0, 0, UTC).Before(now)`: instants compared as
      (month index, offset into the month), the month start having offset zero. */
  predicate MonthStartBefore(year: int, month: int, now: Time.Today)
  {
    var start := Time.MonthIndex(year, month);
    var current := Time.MonthIndex(now.year, now.month);
    start < current || (start == current && 0 < now.sinceMonthStart)
  }

  /** Whether `request` satisfies the check that would report `check`, stated on the
      field values themselves. */
  predicate Passes(request: PaymentRequest, now: Time.Today, check: RequestError)
  {
    match check
    case InvalidCardNumber => |Utils.StripSpaces(request.cardNumber)| == 16
    case ExpiredCard =>
      var start := Time.MonthIndex(request.expYear, request.expMonth);
      var current := Time.MonthIndex(now.year, now.month);
      start > current || (start == current && now.sinceMonthStart == 0)
    case InvalidAmount => 0.0 < request.amount <= MaxAmount
    case UnsupportedCurrency => request.currency in Utils.SupportedCurrencies
    case InvalidCvv => 100 <= request.cvv <= 9999 || -999 <= request.cvv <= -10
  }

  /** The five checks in fixed order; the first failing one is reported. */
  function ValidatePaymentRequest(request: PaymentRequest, now: Time.Today): (r: Option<RequestError>)
    ensures r.Some? ==> !Passes(request, now, r.value)
    ensures r.None? <==> forall check: RequestError :: Passes(request, now, check)
    ensures r.Some? ==> forall check: RequestError :: check.Rank() < r.value.Rank() ==> Passes(request, now, check)
  {
    Strconv.ItoaWidthThreeOrFour(request.cvv);
    if |Utils.StripSpaces(request.cardNumber)| != 16 then Some(InvalidCardNumber)
    else if MonthStartBefore(request.expYear, request.expMonth, now) then Some(ExpiredCard)
    else if request.amount <= 0.0 || request.amount > MaxAmount then Some(InvalidAmount)
    else if !Utils.Contains(Utils.SupportedCurrencies, request.currency) then Some(UnsupportedCurrency)
    else if |Strconv.Itoa(request.cvv)| != 3 && |Strconv.Itoa(request.cvv)| != 4 then Some(InvalidCvv)
    else None
  }

  /** The two CVV rules disagree: four-digit and some negative CVVs pass the request
      validator but fail the acquiring bank's check. */
  lemma CvvRulesDisagree(request: PaymentRequest, now: Time.Today)
    requires 1000 <= request.cvv <= 9999 || -999 <= request.cvv <= -10
    ensures Passes(request, now, InvalidCvv)
    ensures !Utils.ValidateCVV(request.cvv)
  {
  }

  /** The two expiry rules disagree on the current month once it has begun: the request
      validator reports an expired card, the acquiring bank's check accepts it. */
  lemma CurrentMonthRulesDisagree(request: PaymentRequest, now: Time.Today)
    requires request.expYear == now.year && request.expMonth == now.month
    requires 0 < now.sinceMonthStart
    requires |Utils.StripSpaces(request.cardNumber)| == 16
    ensures ValidatePaymentRequest(request, now) == Some(ExpiredCard)
    ensures Utils.ValidateExpiryDate(request.expMonth, request.expYear, now)
  {
  }

  /** The request validator checks only the length of the card number: sixteen
      characters with a non-digit among them pass it but fail the acquiring bank's check. */
  lemma CardNumberRulesDisagree(request: PaymentRequest, now: Time.Today, k: nat)
    requires |Utils.StripSpaces(request.cardNumber)| == 16
    requires k < 16 && !Utils.IsDigit(Utils.StripSpaces(request.cardNumber)[k])
    ensures Passes(request, now, InvalidCardNumber)
    ensures !Utils.ValidateCardNumber(request.cardNumber)
  {
  }
}

/** The payment state machine (services/payment.service.go): a payment is stored
    In-Progress, run through the simulated acquiring bank (validation, funds, fraud,
    debit — first failure wins) and marked Success only when approved; lookups read
    the table, then the cache, then mask and cache the result.
    The database is explicit state; each database fault is a flag. */
module PaymentService {
  import opened Wrappers
  import opened Records
  import Config
  import Gorm
  import Request
  import Storage
  import Time
  import Utils

  /** The payments, cards (card number to balance) and frauds tables. */
  datatype Tables = Tables(payments: seq<Payment>, cards: map<string, real>, frauds: seq<Fraud>)

  /** Which database calls of one `ProcessPayment` fail: the insert, the card lookup of
      the funds check, the fraud query (with an error other than not-found), the
      debit's lookup or save, and the final status update. */
  datatype PaymentFaults = PaymentFaults(
    createFails: bool,
    fundsLookupFails: bool,
    fraudLookupFails: bool,
    approveFails: bool,
    updateFails: bool)

  datatype PaymentError = FailedToStore | FailedToRetrieve
  {
    function Message(): string
    {
      match this
      case FailedToStore => "failed to store payment details"
      case FailedToRetrieve => "failed to retrieve payment details"
    }
  }

  datatype ProcessPaymentResponse = ProcessPaymentResponse(paymentIdentifier: string, status: Status)

  /** The reply of `ProcessPayment` and the tables it leaves behind. */
  datatype Processed = Processed(response: Result<ProcessPaymentResponse, PaymentError>, tables: Tables)

  /** The acquiring bank's verdict and the card balances after it. */
  datatype BankDecision = BankDecision(status: Status, cards: map<string, real>)

  /** The row stored for a request before any evaluation. */
  function NewPaymentRow(request: Request.PaymentRequest, paymentId: string): Payment
  {
    Payment(paymentId, request.cardNumber, request.expMonth, request.expYear,
            request.amount, request.currency, request.cvv, InProgress)
  }

  /** The acquiring bank's own re-validation of the card details. */
  predicate CardDetailsValid(request: Request.PaymentRequest, today: Time.Today)
  {
    && Utils.ValidateCardNumber(request.cardNumber)
    && Utils.ValidateExpiryDate(request.expMonth, request.expYear, today)
    && Utils.ValidateAmount(request.amount)
    && Utils.ValidateCurrency(request.currency)
    && Utils.ValidateCVV(request.cvv)
  }

  /** Funds suffice only when the card exists and its balance covers the amount; a
      missing card or a failed lookup fails closed. */
  function CheckFunds(cards: map<string, real>, cardNumber: string, amount: real, lookupFails: bool): (ok: bool)
    ensures ok ==> cardNumber in cards && cards[cardNumber] - amount >= 0.0
    ensures ok <==> !lookupFails && cardNumber in cards && cards[cardNumber] >= amount
  {
    if lookupFails || cardNumber !in cards then false
    else cards[cardNumber] >= amount
  }

  /** The fraud rule: same card and currency, and a threshold at or above the amount. */
  predicate FraudMatches(fraud: Fraud, cardNumber: string, amount: real, currency: string)
  {
    fraud.cardNumber == cardNumber && fraud.amount >= amount && fraud.currency == currency
  }

  /** A payment is flagged when some fraud row matches it, or when the fraud query
      fails with anything but not-found (fail closed). */
  function CheckForFraud(frauds: seq<Fraud>, cardNumber: string, amount: real, currency: string,
                         lookupFails: bool): (flagged: bool)
    ensures flagged <==> lookupFails || exists i :: 0 <= i < |frauds| && FraudMatches(frauds[i], cardNumber, amount, currency)
  {
    match Gorm.First(frauds, (f: Fraud) => FraudMatches(f, cardNumber, amount, currency))
    case Some(_) => true
    case None => lookupFails
  }

  /** Debits `amount` from exactly one card; a missing card or a failing lookup or save
      reports the database error and changes nothing. */
  function ApprovePayment(cards: map<string, real>, cardNumber: string, amount: real, fails: bool)
    : (r: Result<map<string, real>, Gorm.DbError>)
    ensures r.Ok? <==> !fails && cardNumber in cards
    ensures !fails && cardNumber !in cards ==> r == Err(Gorm.RecordNotFound)
    ensures r.Ok? ==> r.value.Keys == cards.Keys && r.value[cardNumber] == cards[cardNumber] - amount
    ensures r.Ok? ==> forall c :: c in cards && c != cardNumber ==> r.value[c] == cards[c]
  {
    if fails then Err(Gorm.ConnectionError)
    else if cardNumber !in cards then Err(Gorm.RecordNotFound)
    else Ok(cards[cardNumber := cards[cardNumber] - amount])
  }

  /** The acquiring bank: validation, funds, fraud, debit, in that order. Only a pass
      through all four approves, and nothing but an approval moves money. */
  function SimulateAcquiringBank(tables: Tables, request: Request.PaymentRequest, today: Time.Today,
                                 faults: PaymentFaults): (d: BankDecision)
    ensures d.status == Success || d.status == Failure
    ensures d.status == Success <==>
              && CardDetailsValid(request, today)
              && CheckFunds(tables.cards, request.cardNumber, request.amount, faults.fundsLookupFails)
              && !CheckForFraud(tables.frauds, request.cardNumber, request.amount, request.currency, faults.fraudLookupFails)
              && !faults.approveFails
    ensures d.status == Failure ==> d.cards == tables.cards
    ensures d.status == Success ==>
              ApprovePayment(tables.cards, request.cardNumber, request.amount, faults.approveFails) == Ok(d.cards)
  {
    if !CardDetailsValid(request, today) then BankDecision(Failure, tables.cards)
    else if !CheckFunds(tables.cards, request.cardNumber, request.amount, faults.fundsLookupFails) then
      BankDecision(Failure, tables.cards)
    else if CheckForFraud(tables.frauds, request.cardNumber, request.amount, request.currency, faults.fraudLookupFails) then
      BankDecision(Failure, tables.cards)
    else match ApprovePayment(tables.cards, request.cardNumber, request.amount, faults.approveFails)
      case Err(_) => BankDecision(Failure, tables.cards)
      case Ok(cards) => BankDecision(Success, cards)
  }

  /** Stores the payment In-Progress, runs the bank, and marks the row Success only on
      approval. `paymentId` is the fresh identifier the id generator supplies. */
  function ProcessPayment(tables: Tables, request: Request.PaymentRequest, paymentId: string,
                          today: Time.Today, faults: PaymentFaults): (p: Processed)
    ensures faults.createFails ==> p == Processed(Err(FailedToStore), tables)
    ensures !faults.createFails ==>
              && |p.tables.payments| == |tables.payments| + 1
              && p.tables.payments[..|tables.payments|] == tables.payments
              && p.tables.payments[|tables.payments|].(status := InProgress) == NewPaymentRow(request, paymentId)
              && p.tables.frauds == tables.frauds
              && p.tables.cards == SimulateAcquiringBank(tables, request, today, faults).cards
    ensures !faults.createFails ==>
              (p.tables.payments[|tables.payments|].status == Success
               <==> SimulateAcquiringBank(tables, request, today, faults).status == Success && !faults.updateFails)
    ensures !faults.createFails ==> p.tables.payments[|tables.payments|].status != Failure
    ensures p.response.Ok? ==>
              && p.response.value.paymentIdentifier == paymentId
              && p.response.value.status == SimulateAcquiringBank(tables, request, today, faults).status
    ensures p.response.Err? <==>
              faults.createFails
              || (SimulateAcquiringBank(tables, request, today, faults).status == Success && faults.updateFails)
    ensures p.response.Err? ==> p.response.error == FailedToStore
  {
    if faults.createFails then Processed(Err(FailedToStore), tables)
    else
      var row := NewPaymentRow(request, paymentId);
      var decision := SimulateAcquiringBank(tables, request, today, faults);
      var stored := tables.payments + [row];
      if decision.status == Success then
        if faults.updateFails then
          Processed(Err(FailedToStore), Tables(stored, decision.cards, tables.frauds))
        else
          Processed(Ok(ProcessPaymentResponse(paymentId, Success)),
                    Tables(tables.payments + [row.(status := Success)], decision.cards, tables.frauds))
      else
        Processed(Ok(ProcessPaymentResponse(paymentId, decision.status)),
                  Tables(stored, decision.cards, tables.frauds))
  }

  /** Which calls of one `RetrievePayment` fail: the table lookup (with an error other
      than not-found), the cache get and the cache set. */
  datatype RetrieveFaults = RetrieveFaults(lookupFails: bool, cacheGetFails: bool, cacheSetFails: bool)

  /** The reply of `RetrievePayment` and the cache it leaves behind. */
  datatype Retrieved = Retrieved(response: Result<Request.PaymentResponse, PaymentError>, cache: Storage.Cache)

  /** The row `Where("payment_id = ?").First(..)` returns. */
  function FindPayment(payments: seq<Payment>, paymentId: string): (r: Option<nat>)
    ensures r.Some? ==> r.value < |payments| && payments[r.value].paymentId == paymentId
    ensures r.Some? ==> forall j :: 0 <= j < r.value ==> payments[j].paymentId != paymentId
    ensures r.None? <==> forall j :: 0 <= j < |payments| ==> payments[j].paymentId != paymentId
  {
    Gorm.First(payments, (row: Payment) => row.paymentId == paymentId)
  }

  /** The response built from a row: its fields with the card number masked. */
  function PresentPayment(row: Payment): Request.PaymentResponse
  {
    Request.PaymentResponse(row.paymentId, Utils.MaskCardNumber(row.cardNumber), row.amount, row.currency, row.status)
  }

  /** Looks the payment up in the table first; a missing row is an error whatever the
      cache holds. Then a cache hit is returned verbatim; on a miss the masked response
      is built from the row and written to the cache. */
  function RetrievePayment(tables: Tables, cache: Storage.Cache, cfg: Config.EnvConfig,
                           paymentId: string, faults: RetrieveFaults): (r: Retrieved)
    ensures faults.lookupFails || FindPayment(tables.payments, paymentId).None? ==>
              r == Retrieved(Err(FailedToRetrieve), cache)
    ensures r.response.Err? <==> faults.lookupFails || FindPayment(tables.payments, paymentId).None?
    ensures r.response.Ok? ==> FindPayment(tables.payments, paymentId).Some?
    ensures r.response.Ok? && r.cache != cache ==>
              var row := tables.payments[FindPayment(tables.payments, paymentId).value];
              && r.response.value == PresentPayment(row)
              && r.cache == cache[Storage.PaymentCacheKey(paymentId) := r.response.value]
    ensures r.response.Ok? ==>
              var hit := Storage.GetPaymentDetailsFromCache(cfg, cache, paymentId, faults.cacheGetFails);
              if hit.details.Some? then r == Retrieved(Ok(hit.details.value), cache)
              else r.response.value == PresentPayment(tables.payments[FindPayment(tables.payments, paymentId).value])
                   && r.cache == Storage.SetPaymentDetails(cfg, cache, paymentId, r.response.value, faults.cacheSetFails)
  {
    var found := FindPayment(tables.payments, paymentId);
    if faults.lookupFails || found.None? then Retrieved(Err(FailedToRetrieve), cache)
    else
      var hit := Storage.GetPaymentDetailsFromCache(cfg, cache, paymentId, faults.cacheGetFails);
      if hit.details.Some? then Retrieved(Ok(hit.details.value), cache)
      else
        var details := PresentPayment(tables.payments[found.value]);
        Retrieved(Ok(details), Storage.SetPaymentDetails(cfg, cache, paymentId, details, faults.cacheSetFails))
  }
}

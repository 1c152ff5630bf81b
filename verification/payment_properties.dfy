/** What the payment state machine guarantees across calls: declines move no money,
    approvals debit exactly once, balances stay non-negative over any sequence of
    payments, rows are append-only, and lookups are masked and stable under caching. */
module PaymentProperties {
  import opened Wrappers
  import opened Records
  import Config
  import Request
  import Storage
  import Time
  import Utils
  import opened PaymentService

  /** A failing stage decides the outcome whatever the later stages would say: a failed
      validation ignores cards, frauds and every later fault, and failed funds ignore
      the frauds and the fraud and debit faults. */
  lemma StagesShortCircuit(tables: Tables, request: Request.PaymentRequest, today: Time.Today,
                           faults: PaymentFaults, otherTables: Tables, otherFaults: PaymentFaults)
    ensures !CardDetailsValid(request, today) ==>
              SimulateAcquiringBank(otherTables, request, today, otherFaults) == BankDecision(Failure, otherTables.cards)
    ensures CardDetailsValid(request, today)
            && !CheckFunds(tables.cards, request.cardNumber, request.amount, faults.fundsLookupFails) ==>
              SimulateAcquiringBank(tables.(frauds := otherTables.frauds), request, today,
                                    faults.(fraudLookupFails := otherFaults.fraudLookupFails,
                                            approveFails := otherFaults.approveFails))
              == BankDecision(Failure, tables.cards)
  {
  }

  /** A declined payment leaves every balance as it was. */
  lemma DeclineMovesNoMoney(tables: Tables, request: Request.PaymentRequest, paymentId: string,
                            today: Time.Today, faults: PaymentFaults)
    requires ProcessPayment(tables, request, paymentId, today, faults).response.Ok?
    requires ProcessPayment(tables, request, paymentId, today, faults).response.value.status == Failure
    ensures ProcessPayment(tables, request, paymentId, today, faults).tables.cards == tables.cards
    ensures var p := ProcessPayment(tables, request, paymentId, today, faults);
            p.tables.payments[|tables.payments|] == NewPaymentRow(request, paymentId)
  {
  }

  /** A four-digit CVV passes the request validator's CVV check yet is always declined
      by the bank: the stored row stays In-Progress and no balance moves. */
  lemma FourDigitCvvAlwaysDeclined(tables: Tables, request: Request.PaymentRequest, paymentId: string,
                                   today: Time.Today, faults: PaymentFaults)
    requires 1000 <= request.cvv <= 9999
    requires !faults.createFails
    ensures Request.Passes(request, today, Request.InvalidCvv)
    ensures var p := ProcessPayment(tables, request, paymentId, today, faults);
            && p.response == Ok(ProcessPaymentResponse(paymentId, Failure))
            && p.tables.cards == tables.cards
            && p.tables.payments == tables.payments + [NewPaymentRow(request, paymentId)]
  {
    Request.CvvRulesDisagree(request, today);
    var p := ProcessPayment(tables, request, paymentId, today, faults);
    assert p.tables.payments == p.tables.payments[..|tables.payments|] + [p.tables.payments[|tables.payments|]];
  }

  /** An approved payment debits exactly its amount from its own card, leaves that card
      with a non-negative balance, leaves every other card alone, and is stored as Success. */
  lemma ApprovalDebitsExactlyOnce(tables: Tables, request: Request.PaymentRequest, paymentId: string,
                                  today: Time.Today, faults: PaymentFaults)
    requires ProcessPayment(tables, request, paymentId, today, faults).response == Ok(ProcessPaymentResponse(paymentId, Success))
    ensures var p := ProcessPayment(tables, request, paymentId, today, faults);
            && request.cardNumber in tables.cards
            && p.tables.cards.Keys == tables.cards.Keys
            && p.tables.cards[request.cardNumber] == tables.cards[request.cardNumber] - request.amount
            && p.tables.cards[request.cardNumber] >= 0.0
            && (forall c :: c in tables.cards && c != request.cardNumber ==> p.tables.cards[c] == tables.cards[c])
            && p.tables.payments[|tables.payments|].status == Success
  {
  }

  ghost predicate NonNegativeBalances(cards: map<string, real>)
  {
    forall c :: c in cards ==> cards[c] >= 0.0
  }

  /** One payment request with everything its environment supplies. */
  datatype Submission = Submission(request: Request.PaymentRequest, paymentId: string, today: Time.Today, faults: PaymentFaults)

  /** The tables after a sequence of payments processed one after another. */
  function ProcessAll(tables: Tables, batch: seq<Submission>): Tables
    decreases |batch|
  {
    if |batch| == 0 then tables
    else
      var s := batch[0];
      ProcessAll(ProcessPayment(tables, s.request, s.paymentId, s.today, s.faults).tables, batch[1..])
  }

  /** Over any sequence of payments processed one at a time: balances never go negative,
      stored rows are never changed or removed, at most one row is added per request,
      and the frauds table is never touched. */
  lemma {:induction false} ProcessAllInvariants(tables: Tables, batch: seq<Submission>)
    requires NonNegativeBalances(tables.cards)
    ensures var after := ProcessAll(tables, batch);
            && NonNegativeBalances(after.cards)
            && |tables.payments| <= |after.payments| <= |tables.payments| + |batch|
            && after.payments[..|tables.payments|] == tables.payments
            && after.frauds == tables.frauds
            && after.cards.Keys == tables.cards.Keys
    decreases |batch|
  {
    if |batch| > 0 {
      var s := batch[0];
      var p := ProcessPayment(tables, s.request, s.paymentId, s.today, s.faults);
      var d := SimulateAcquiringBank(tables, s.request, s.today, s.faults);
      if !s.faults.createFails && d.status == Success {
        assert NonNegativeBalances(p.tables.cards);
      }
      ProcessAllInvariants(p.tables, batch[1..]);
      var after := ProcessAll(p.tables, batch[1..]);
      assert after.payments[..|p.tables.payments|] == p.tables.payments;
      assert after.payments[..|tables.payments|] == after.payments[..|p.tables.payments|][..|tables.payments|];
    }
  }

  /** The scenario of tests/proccess_payments_test.go: a payment on a card with no card
      record is declined, and its row stays In-Progress with the submitted fields. */
  lemma UnknownCardIsDeclined(tables: Tables, request: Request.PaymentRequest, paymentId: string,
                              today: Time.Today, faults: PaymentFaults)
    requires request == Request.PaymentRequest("1234123412341234", 12, 2024, 10.0, "USD", 123)
    requires request.cardNumber !in tables.cards
    requires !faults.createFails
    ensures var p := ProcessPayment(tables, request, paymentId, today, faults);
            && p.response == Ok(ProcessPaymentResponse(paymentId, Failure))
            && p.tables.payments[|tables.payments|]
               == Payment(paymentId, "1234123412341234", 12, 2024, 10.0, "USD", 123, InProgress)
  {
  }

  /** Every cached response is in display form. */
  ghost predicate CacheHoldsMasked(cache: Storage.Cache)
  {
    forall k :: k in cache ==> Utils.IsMasked(cache[k].maskedCardNumber)
  }

  /** Lookups never reveal more than the last four characters of a card number: when the
      cache holds only masked responses, every response is masked and the cache stays so. */
  lemma RetrieveKeepsCardNumbersMasked(tables: Tables, cache: Storage.Cache, cfg: Config.EnvConfig,
                                       paymentId: string, faults: RetrieveFaults)
    requires CacheHoldsMasked(cache)
    ensures var r := RetrievePayment(tables, cache, cfg, paymentId, faults);
            && CacheHoldsMasked(r.cache)
            && (r.response.Ok? ==> Utils.IsMasked(r.response.value.maskedCardNumber))
  {
    var r := RetrievePayment(tables, cache, cfg, paymentId, faults);
    var found := FindPayment(tables.payments, paymentId);
    if found.Some? {
      Utils.MaskShowsOnlyLastFour(tables.payments[found.value].cardNumber);
    }
  }

  /** Read-through caching: with the cache on and working, a second lookup of the same
      payment returns the first lookup's response from the cache and changes nothing. */
  lemma RetrieveTwiceHitsCache(tables: Tables, cache: Storage.Cache, cfg: Config.EnvConfig, paymentId: string)
    requires cfg.useRedis
    requires FindPayment(tables.payments, paymentId).Some?
    ensures var noFaults := RetrieveFaults(false, false, false);
            var first := RetrievePayment(tables, cache, cfg, paymentId, noFaults);
            var second := RetrievePayment(tables, first.cache, cfg, paymentId, noFaults);
            && first.response.Ok?
            && second == Retrieved(first.response, first.cache)
  {
  }

  /** With caching off every lookup recomputes the masked response from the table and
      the cache is never touched, so repeated lookups agree. */
  lemma RetrieveWithoutCacheRecomputes(tables: Tables, cache: Storage.Cache, cfg: Config.EnvConfig,
                                       paymentId: string, faults: RetrieveFaults)
    requires !cfg.useRedis && !faults.lookupFails
    requires FindPayment(tables.payments, paymentId).Some?
    ensures RetrievePayment(tables, cache, cfg, paymentId, faults)
            == Retrieved(Ok(PresentPayment(tables.payments[FindPayment(tables.payments, paymentId).value])), cache)
  {
  }

  /** A stale or foreign cache entry cannot stand in for a missing row. */
  lemma RetrieveNeedsStoredRow(tables: Tables, cache: Storage.Cache, cfg: Config.EnvConfig,
                               paymentId: string, faults: RetrieveFaults)
    requires Storage.PaymentCacheKey(paymentId) in cache
    requires forall j :: 0 <= j < |tables.payments| ==> tables.payments[j].paymentId != paymentId
    ensures RetrievePayment(tables, cache, cfg, paymentId, faults).response == Err(FailedToRetrieve)
  {
  }

  /** A processed payment can be looked up: with a fresh id and no cached entry for it,
      the lookup returns the submitted amount and currency, the masked card number, and
      the status the processing stored (Success exactly when it reported Success). */
  lemma ProcessedPaymentIsRetrievable(tables: Tables, request: Request.PaymentRequest, paymentId: string,
                                      today: Time.Today, faults: PaymentFaults,
                                      cache: Storage.Cache, cfg: Config.EnvConfig, retrieveFaults: RetrieveFaults)
    requires forall j :: 0 <= j < |tables.payments| ==> tables.payments[j].paymentId != paymentId
    requires Storage.PaymentCacheKey(paymentId) !in cache
    requires !retrieveFaults.lookupFails
    requires ProcessPayment(tables, request, paymentId, today, faults).response.Ok?
    ensures var p := ProcessPayment(tables, request, paymentId, today, faults);
            var r := RetrievePayment(p.tables, cache, cfg, paymentId, retrieveFaults);
            && r.response.Ok?
            && r.response.value.paymentId == paymentId
            && r.response.value.maskedCardNumber == Utils.MaskCardNumber(request.cardNumber)
            && r.response.value.amount == request.amount
            && r.response.value.currency == request.currency
            && (r.response.value.status == Success <==> p.response.value.status == Success)
            && r.response.value.status != Failure
  {
    var p := ProcessPayment(tables, request, paymentId, today, faults);
    var n := |tables.payments|;
    assert forall j :: 0 <= j < n ==> p.tables.payments[j] == tables.payments[j];
    assert p.tables.payments[n].paymentId == paymentId;
    assert FindPayment(p.tables.payments, paymentId) == Some(n);
  }

  /** The lookup scenario of tests/proccess_payments_test.go: a stored Success payment
      on a card ending in 3457 is shown as "**** **** **** 3457" with its amount,
      currency and status unchanged. */
  lemma StoredPaymentScenario(tables: Tables, cache: Storage.Cache, cfg: Config.EnvConfig,
                              faults: RetrieveFaults, i: nat)
    requires i < |tables.payments|
    requires tables.payments[i].paymentId == "9bbaf0c4-8d6f-4ae1-920a-b91299b68b0a"
    requires forall j :: 0 <= j < i ==> tables.payments[j].paymentId != tables.payments[i].paymentId
    requires |tables.payments[i].cardNumber| > 4
    requires tables.payments[i].cardNumber[|tables.payments[i].cardNumber| - 4..] == "3457"
    requires tables.payments[i].amount == 34.0 && tables.payments[i].currency == "EUR"
    requires tables.payments[i].status == Success
    requires !cfg.useRedis && !faults.lookupFails
    ensures var r := RetrievePayment(tables, cache, cfg, tables.payments[i].paymentId, faults);
            r.response == Ok(Request.PaymentResponse("9bbaf0c4-8d6f-4ae1-920a-b91299b68b0a",
                                                     "**** **** **** 3457", 34.0, "EUR", Success))
  {
    assert FindPayment(tables.payments, tables.payments[i].paymentId) == Some(i);
    assert Utils.MaskCardNumber(tables.payments[i].cardNumber) == Utils.MaskPrefix + "3457";
    assert Utils.MaskPrefix + "3457" == "**** **** **** 3457";
  }
}

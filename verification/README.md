# Payment and token engine of a checkout backend, in Dafny

This project models the core of a payment checkout service written in Go. The core has two halves:

- **The payment engine.** It validates a card payment request, stores the payment as In-Progress, and runs a simulated acquiring bank. The bank re-validates the card details, checks funds, checks the fraud deny-list and debits the card; the first failing stage declines the payment. Only an approved payment is marked Success. A lookup reads the payments table, then an optional cache, masks the card number, and caches the result.
- **The token engine.** It issues signed access and refresh tokens and stores one row per token. It verifies a presented token by claim type, by expiry with a ten-second grace, and by its stored row. A refresh verifies the refresh token, deletes its row and issues a new pair.

Everything is a pure function over explicit state:

- The database is `PaymentService.Tables`: payments as a sequence in primary-key order, cards as a map from card number to balance, and frauds as a sequence.
- The token table is `TokenService.TokenStore`, a map from id to row.
- The cache is `Storage.Cache`, a map from key to response.
- The clock, the random ids and every database, cache, signing and parsing failure are parameters.

Modules follow the source files:

| module | file |
|---|---|
| `Utils` | utils/utils.go |
| `Request` | models/request.go |
| `Records` | models/db/payment.go and models/db/token.go |
| `Config` | models/config.go (the record only) |
| `Storage` | services/storage.service.go |
| `PaymentService` and `PaymentProperties` | services/payment.service.go |
| `TokenService` and `TokenProperties` | services/token.service.go |
| `AuthController` | controllers/auth.go |

Three helper modules support them:

- `Gorm` models the ORM's `Where(..).First(..)` and its errors.
- `Strconv` models `strconv.Itoa`.
- `Time` holds the clock values and units.

Some behaviours of the code are easy to miss; the model keeps them:

- **Fraud rule.** A fraud row matches when its amount is at or above the requested amount (`amount >= ?`).
- **Lookup order.** The lookup queries the table before the cache. A cached entry never stands in for a missing row.
- **Refresh errors.** `Refresh` ignores an issuance error and answers 200 with zero-valued tokens.
- **Partial issuance.** A failed refresh-token creation leaves the access token stored.
- **Declined payments.** They stay In-Progress; nothing writes a Failure status.
- **Token type filter.** The store check compares types as strings (`type >= ?`), so a refresh row also satisfies an access filter.

The two validators disagree, and the model shows it:

- **CVV.** Four-digit CVVs, and negatives from -999 to -10, pass the request validator. The bank's check always rejects them (`Request.CvvRulesDisagree`, `PaymentProperties.FourDigitCvvAlwaysDeclined`).
- **Current month.** An expiry in the current month is rejected by the request validator once the month has begun. The bank accepts it (`Request.CurrentMonthRulesDisagree`).
- **Card number.** The request validator checks only the length, so letters pass it (`Request.CardNumberRulesDisagree`).

## Model

| member | source | states |
|---|---|---|
| `Gorm.First` | services/payment.service.go:141-152 | the row a `Where(..).First(..)` query returns is the first row, in primary-key order, that satisfies the filter; none is returned only when no row does |
| `Strconv.ItoaWidthThreeOrFour` | models/request.go:86-88 | the decimal rendering of a CVV has 3 or 4 characters exactly for 100..9999 and for -999..-10 (the minus sign counts) |
| `Utils.Contains` | utils/utils.go:8-15 | true exactly when the item occurs in the list |
| `Utils.StripSpaces` | utils/utils.go:18 | removing spaces never lengthens the string, leaves no space behind, and leaves a space-free string as it was |
| `Utils.CardNumberIgnoresSpaces` | utils/utils.go:17-30 | inserting a space anywhere in a card number changes neither the stripped number nor the verdict |
| `Utils.ValidateCardNumber` | utils/utils.go:17-30 | a card number passes exactly when, with its spaces removed, it has 16 characters and every one is a decimal digit |
| `Utils.ValidCardNumberTestVector` | utils/utils_test.go:29-33 | "2345 6789 0123 4567" passes the card-number check |
| `Utils.LetterCardNumberTestVector` | utils/utils_test.go:39-42 | "1234 5678 9012 3A6F" has 16 characters once stripped, yet fails the card-number check |
| `Utils.ValidateExpiryDate` | utils/utils.go:32-39 | any later year passes and any earlier year fails; in the current year the expiry passes exactly when its month number is at least the current one, whatever the month number is; for months 1..12 this is "the current month or later" |
| `Utils.ExpiryAcceptsCurrentMonth` | utils/utils_test.go:58-63 | the current month and year pass the bank's expiry check |
| `Utils.ExpiryHasNoMonthRange` | utils/utils.go:34 | month numbers are not range-checked: month 13 of this year and month 0 of next year pass, month 0 of this year fails |
| `Utils.ValidateAmount` | utils/utils.go:41-47 | an amount passes exactly when it is strictly positive |
| `Utils.ValidateCurrency` | utils/utils.go:49-58 | a currency passes exactly when it is USD, EUR or GBP |
| `Utils.ValidateCVV` | utils/utils.go:60-66 | a CVV passes exactly when it is non-negative and renders with three decimal digits |
| `Utils.CvvRejectsFourDigitsAndLeadingZero` | utils/utils.go:60-66 | four-digit CVVs and CVVs below 100 (one written with a leading zero, or a negative one) never pass |
| `Utils.MaskCardNumber` | utils/utils.go:68-74 | a number longer than four characters becomes a 19-character display value; a shorter one is returned unchanged |
| `Utils.MaskShowsOnlyLastFour` | utils/utils.go:68-74 | the masked value is in display form, keeps the last four characters, shows only '*' and ' ' before them, and masking it again changes nothing |
| `Utils.MaskFixesMaskedValues` | utils/utils.go:70-73 | every value already in display form is left unchanged by masking |
| `Utils.UtilsTestVectors` | utils/utils_test.go:9-81 | the membership cases, the fourteen-digit card number and the amount cases of the unit tests |
| `Request.ValidatePaymentRequest` | models/request.go:61-91 | the checks run in the order card length, expiry, amount, currency, CVV; the reported error is the first check that fails; no error exactly when all pass. The checks are: stripped length 16; not past the first instant of the expiry month; 0 < amount <= 1000; a supported currency; CVV in 100..9999 or -999..-10 |
| `Request.CvvRulesDisagree` | models/request.go:86-88 | four-digit and negative two- or three-digit CVVs pass the request validator's CVV check but fail the bank's |
| `Request.CurrentMonthRulesDisagree` | models/request.go:68-72 | once the current month has begun, an expiry in that month is reported as "expired card" by the request validator but accepted by the bank |
| `Request.CardNumberRulesDisagree` | models/request.go:63-65 | sixteen stripped characters with a non-digit pass the request validator's card check but fail the bank's |
| `Storage.PaymentCacheKey` | services/storage.service.go:77-79 | the key is the fixed prefix followed by the payment id, which can be read back from the key |
| `Storage.PaymentCacheKeyInjective` | services/storage.service.go:77-79 | distinct payment ids have distinct cache keys |
| `Storage.SetPaymentDetails` | services/storage.service.go:81-92 | with caching off, or when the set fails, the cache is unchanged; otherwise the payment's key holds the new details and no other entry changes |
| `Storage.GetPaymentDetailsFromCache` | services/storage.service.go:94-106 | with caching off the read reports "disabled" and nothing found; otherwise found exactly when the backend answers and the key is present, returning that entry; every miss carries an error |
| `Storage.SetThenGet` | services/storage.service.go:81-106 | a successful set is read back by the next get of that payment, and reads of other payments are unaffected |
| `PaymentService.CheckFunds` | services/payment.service.go:131-139 | funds suffice only when the card row exists and its balance covers the amount, so a later debit cannot go negative; a missing card or failed lookup fails closed; with a working lookup, funds suffice exactly when the card exists and covers the amount |
| `PaymentService.CheckForFraud` | services/payment.service.go:141-152 | a payment is flagged exactly when some fraud row has its card, its currency and a threshold at or above its amount, or when the fraud query fails with an error other than not-found |
| `PaymentService.ApprovePayment` | services/payment.service.go:154-168 | the debit succeeds exactly when the card exists and no database call fails; it lowers that card by exactly the amount and changes no other card; on error nothing changes |
| `PaymentService.SimulateAcquiringBank` | services/payment.service.go:92-129 | the verdict is Success or Failure. It is Success exactly when the bank's re-validation, funds and the absence of fraud all hold and the debit works. A Failure moves no money; a Success applies exactly the debit |
| `PaymentService.ProcessPayment` | services/payment.service.go:21-55 | a failed insert answers "failed to store payment details" and changes nothing. Otherwise exactly one row is appended with the request's fields and the fresh id, and earlier rows are untouched. The row is Success exactly when the bank approved and the status update worked, else In-Progress, never Failure. The reply carries the fresh id and the bank's verdict. The reply is an error exactly when the insert failed or an approved payment's status update failed; the latter answers an error although the card was debited |
| `PaymentService.FindPayment` | services/payment.service.go:59 | the lookup finds the first row carrying the payment id, and finds none only when no row carries it |
| `PaymentService.RetrievePayment` | services/payment.service.go:57-90 | a failed or empty table lookup answers "failed to retrieve payment details" with the cache unchanged, and those are the only failures. A cache hit is returned verbatim. A miss returns the row's fields with the card masked and writes exactly that value under the payment's key |
| `PaymentProperties.StagesShortCircuit` | services/payment.service.go:100-110 | a failed validation declines whatever the cards, frauds and later faults are; failed funds decline whatever the frauds and the fraud and debit faults are |
| `PaymentProperties.DeclineMovesNoMoney` | services/payment.service.go:41-53 | a declined payment leaves every balance unchanged and its row In-Progress with the submitted fields |
| `PaymentProperties.FourDigitCvvAlwaysDeclined` | services/payment.service.go:94-103 | a four-digit CVV passes the request validator's CVV check but is always declined: the row stays In-Progress and no balance moves |
| `PaymentProperties.ApprovalDebitsExactlyOnce` | services/payment.service.go:154-168 | an approved payment debits exactly its amount from its own card and leaves it non-negative. No other card changes, and the row is Success |
| `PaymentProperties.ProcessAllInvariants` | services/payment.service.go:106-124 | over any sequence of payments processed one at a time, balances that start non-negative stay non-negative and stored rows are never changed or removed. At most one row is added per request, and the frauds table and the set of cards never change |
| `PaymentProperties.UnknownCardIsDeclined` | tests/proccess_payments_test.go:13-57 | a payment for a card with no card record is declined, and its row stays In-Progress with the submitted fields |
| `PaymentProperties.RetrieveKeepsCardNumbersMasked` | services/payment.service.go:74-88 | when the cache holds only masked responses, every lookup response is masked and the cache stays so |
| `PaymentProperties.RetrieveTwiceHitsCache` | services/payment.service.go:64-88 | with a working cache, a second lookup of a stored payment returns the first lookup's response and changes nothing |
| `PaymentProperties.RetrieveWithoutCacheRecomputes` | services/storage.service.go:94-97 | with caching off, every lookup recomputes the masked response from the table and leaves the cache untouched |
| `PaymentProperties.RetrieveNeedsStoredRow` | services/payment.service.go:59-62 | a cached entry cannot stand in for a missing row: the lookup fails |
| `PaymentProperties.ProcessedPaymentIsRetrievable` | services/payment.service.go:21-90 | after processing with a fresh id, a lookup returns the masked card, amount and currency of the request. The status is Success exactly when processing reported Success |
| `PaymentProperties.StoredPaymentScenario` | tests/proccess_payments_test.go:59-71 | a stored Success payment on a card ending 3457 is shown as "**** **** **** 3457" with amount 34, EUR and status Success |
| `TokenService.TypeFilterOrder` | services/token.service.go:95 | a row's own type passes the string filter `type >= ?`. A refresh row passes an access filter; an access row fails a refresh filter |
| `TokenService.CreateToken` | services/token.service.go:14-47 | a signing failure answers "cannot create access token" and stores nothing. An insert failure or a taken id stores nothing either. Success stores and returns exactly one row: the drawn id, the type, the expiry, not blacklisted, with claims naming the email, type, issue time, expiry and id. Other rows are unchanged |
| `TokenService.DeleteTokenById` | services/token.service.go:50-57 | a missing id answers not-found and a database fault answers an error, both removing nothing; otherwise the deletion succeeds and removes exactly that row |
| `TokenService.GenerateAccessTokens` | services/token.service.go:60-75 | the access token is created first, and its failure stores nothing and skips the refresh token. A refresh failure reports that creation's error and leaves the access row stored; when both creations succeed the pair is issued: an access row expiring after the configured minutes, a refresh row after the configured days, both signed for the requested email with the issue time and their own ids as subject, neither blacklisted, and nothing else changed |
| `TokenService.VerifyToken` | services/token.service.go:78-99 | "not valid token" exactly when parsing fails or the claimed type differs. Otherwise "token is expired" exactly when more than ten seconds past the claimed expiry. Otherwise success only for a non-blacklisted stored row with the subject as id and a type at least the required one. Only those three errors occur. Conversely, a parsed token of the right type within its grace, whose stored row is present, not blacklisted and of a type at least the required one, verifies to that row |
| `TokenProperties.IssuedTokensVerify` | services/token.service.go:78-99 | each token of an issued pair verifies for its own type up to ten seconds past its expiry, and is refused as "not valid token" for the other type |
| `TokenProperties.ExpiredTokenRefused` | services/token.service.go:88-90 | more than ten seconds past its expiry a correctly typed token is refused as expired, whatever the store holds |
| `TokenProperties.DeletedTokenNotFound` | services/token.service.go:95-97 | a token that verifies can be deleted, and afterwards it is refused as "cannot find token" |
| `TokenProperties.BlacklistedTokenNotFound` | services/token.service.go:95-97 | a token whose row is blacklisted never verifies |
| `AuthController.GenerateAccessToken` | controllers/auth.go:22-47 | success with status 200 exactly when the pair was issued, carrying both tokens. Otherwise 400, not successful, with the service error as the message |
| `AuthController.Refresh` | controllers/auth.go:59-94 | a failed verification or deletion answers 400 with that step's error as the message and changes nothing. Otherwise the row named by the token's subject is deleted before the new pair is issued, and the answer is always 200 and successful with the echoed email, even when issuance failed (then the tokens are zero-valued) |
| `AuthController.RefreshKeepsStoreWellKeyed` | services/token.service.go:34-44 | issuing and refreshing keep every token row stored under its own id |
| `AuthController.RefreshTokenIsSingleUse` | controllers/auth.go:76-82 | after a successful refresh that drew new ids, the consumed refresh token never verifies again |
| `AuthController.RefreshHidesIssuanceFailure` | controllers/auth.go:84-93 | when issuance fails at any step after the old row is deleted, the answer is still 200 and successful, with two zero-valued tokens; the old row is gone and at most the new access row was added |
| `AuthController.IssueThenRefresh` | controllers/auth.go:59-94 | the refresh token of an issued pair, presented within its grace, is exchanged for a pair with the new ids. The old refresh row is removed and the old access row stays |

## Left out

- **Circuit breaker and payment HTTP handlers** (controllers/payments.go): a library with internal synchronisation inside HTTP plumbing.
- **Signing and parsing.** HS256 signing and `jwt.ParseWithClaims` are an abstract `Signed(claims)` value plus a parse-failure flag. The parser's own expiry validation is not modelled. The ten-second grace is therefore the code's own check only. The claims keep full precision rather than whole seconds.
- **Randomness.** `uuid.New` and `rand.Int63` are ids supplied by the caller. Id uniqueness is not assumed: an id already in the token table makes the insert fail.
- **The clock.** `time.Now()` is a parameter. Payments take the calendar view (`Time.Today`: UTC year, month and nanoseconds since the month began). Tokens take nanoseconds since the epoch. The process's local zone is taken to be UTC.
- **Numeric types.** Amounts and balances are `real`, so float64 rounding is not modelled. `int`/`int64` overflow, including in duration arithmetic, is not modelled.
- **Connection code and cache expiry.** Database and cache connection code is I/O, as is the cache's one-minute TTL and its in-process layer.
- **Concurrency.** The sequential model rules out the race between concurrent debits of one card.
- **String comparison.** The database collation for `type >= ?` is plain lexicographic comparison of characters.
- **Library validation rules.** `AuthRequest.Validate`, `RefreshRequest.Validate` and `EnvConfig.Validate` are rule sets of a validation library. Routes, middlewares, metrics, documentation and startup are plumbing.
- **Status strings.** The constants package that spells out the payment statuses is not part of this model. Statuses are the enumeration `Records.Status`.
- **Row keys.** Payment rows are keyed by position rather than by a serial id. A token's subject is its id rather than the id's decimal string.
- **Strings.** Strings are character sequences. The source indexes bytes, which agrees on ASCII input.
- TokenService.VerifyToken: a failing store lookup is a flag that yields "cannot find token". Driver error texts are not modelled, and neither are the extra arguments `fmt.Errorf` appends to "Cannot save access token to db".

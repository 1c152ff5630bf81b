/** Rows of the four tables (models/db/payment.go, models/db/token.go). */
module Records {

  /** Payment status. The constants package that spells these out is not part of this
      model; the tests read them back as "In-Progress", "Success" and "failure". */
  datatype Status = InProgress | Success | Failure

  /** A payments row. The serial primary key is the row's position in its table. */
  datatype Payment = Payment(
    paymentId: string,
    cardNumber: string,
    expMonth: int,
    expYear: int,
    amount: real,
    currency: string,
    cvv: int,
    status: Status)

  /** A frauds row: a deny rule for a card, an amount threshold and a currency. */
  datatype Fraud = Fraud(cardNumber: string, amount: real, currency: string)

  const TokenTypeAccess: string := "access"
  const TokenTypeRefresh: string := "refresh"

  /** The claims a signed token carries. `subject` is the token row's id (the code
      writes it in decimal and the store compares it back against the id column). */
  datatype Claims = Claims(email: string, tokenType: string, issuedAt: int, expiresAt: int, subject: int)

  /** A token string: either one this service signed, carrying its claims, or text
      that does not parse as a signed token (the empty string among them). */
  datatype Credential = Malformed | Signed(claims: Claims)

  /** A tokens row, keyed by `id`. */
  datatype Token = Token(id: int, credential: Credential, tokenType: string, expiresAt: int, blacklisted: bool)
}

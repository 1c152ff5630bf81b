/** The field validators used by the acquiring-bank simulation and the display mask
    applied to stored card numbers (utils/utils.go). Strings are sequences of
    characters; the source indexes bytes, which agrees on ASCII input. */
module Utils {
  import Strconv
  import Time

  /** Linear membership scan over a list of strings. */
  function Contains(list: seq<string>, item: string): (r: bool)
    ensures r <==> item in list
  {
    if |list| == 0 then false
    else
      assert list == [list[0]] + list[1..];
      list[0] == item || Contains(list[1..], item)
  }

  /** `strings.ReplaceAll(s, " ", "")`: `s` with every space removed, order kept. */
  function StripSpaces(s: string): (r: string)
    ensures |r| <= |s|
    ensures ' ' !in r
    ensures ' ' !in s ==> r == s
  {
    if |s| == 0 then ""
    else
      assert s == [s[0]] + s[1..];
      if s[0] == ' ' then StripSpaces(s[1..]) else [s[0]] + StripSpaces(s[1..])
  }

  lemma {:induction false} StripSpacesAppend(a: string, b: string)
    ensures StripSpaces(a + b) == StripSpaces(a) + StripSpaces(b)
    decreases |a|
  {
    if |a| == 0 {
      assert a + b == b;
    } else {
      assert (a + b)[0] == a[0];
      assert (a + b)[1..] == a[1..] + b;
      StripSpacesAppend(a[1..], b);
    }
  }

  /** Removing a single space between two space-free pieces joins them. */
  lemma StripSpacesJoin(a: string, b: string)
    ensures StripSpaces(a + " " + b) == StripSpaces(a) + StripSpaces(b)
  {
    assert StripSpaces(" ") == StripSpaces(" "[1..]) == "" by {
      assert " "[0] == ' ' && " "[1..] == "";
    }
    StripSpacesAppend(a, " ");
    assert StripSpaces(a + " ") == StripSpaces(a) + "" == StripSpaces(a);
    StripSpacesAppend(a + " ", b);
  }

  predicate IsDigit(c: char)
  {
    '0' <= c <= '9'
  }

  /** The digit scan over positions i..15 of an already stripped 16-character number. */
  function DigitsFrom(s: string, i: nat): (r: bool)
    requires |s| == 16 && i <= 16
    ensures r <==> forall j :: i <= j < 16 ==> IsDigit(s[j])
    decreases 16 - i
  {
    i == 16 || (IsDigit(s[i]) && DigitsFrom(s, i + 1))
  }

  /** Card numbers: sixteen decimal digits once the spaces are removed. */
  function ValidateCardNumber(cardNumber: string): (r: bool)
    ensures r <==> |StripSpaces(cardNumber)| == 16
                   && forall c :: c in StripSpaces(cardNumber) ==> IsDigit(c)
  {
    var digits := StripSpaces(cardNumber);
    |digits| == 16 && DigitsFrom(digits, 0)
  }

  /** Spaces are insignificant to the card-number check wherever they appear. */
  lemma CardNumberIgnoresSpaces(a: string, b: string)
    ensures ValidateCardNumber(a + " " + b) == ValidateCardNumber(a + b)
    ensures StripSpaces(a + " " + b) == StripSpaces(a + b)
  {
    StripSpacesAppend(a + " ", b);
    StripSpacesAppend(a, " ");
    StripSpacesAppend(a, b);
    assert StripSpaces(" ") == "";
  }

  /** The valid card-number case of utils/utils_test.go: "2345 6789 0123 4567", written
      as its four digit groups joined by single spaces, strips to the sixteen digits
      and passes. */
  lemma ValidCardNumberTestVector(a: string, b: string, c: string, d: string)
    requires a == "2345" && b == "6789" && c == "0123" && d == "4567"
    ensures ValidateCardNumber(a + " " + b + " " + c + " " + d)
  {
    assert StripSpaces(a + " " + b + " " + c + " " + d) == a + b + c + d by {
      StripSpacesJoin(a + " " + b + " " + c, d);
      StripSpacesJoin(a + " " + b, c);
      StripSpacesJoin(a, b);
    }
    assert forall ch :: ch in a ==> IsDigit(ch);
    assert forall ch :: ch in b ==> IsDigit(ch);
    assert forall ch :: ch in c ==> IsDigit(ch);
    assert forall ch :: ch in d ==> IsDigit(ch);
  }

  /** The invalid-character case of utils/utils_test.go: "1234 5678 9012 3A6F", written
      as its four groups joined by single spaces, has the right stripped length but
      fails on the letter 'A'. */
  lemma LetterCardNumberTestVector(a: string, b: string, c: string, d: string)
    requires a == "1234" && b == "5678" && c == "9012" && d == "3A6F"
    ensures |StripSpaces(a + " " + b + " " + c + " " + d)| == 16
    ensures !ValidateCardNumber(a + " " + b + " " + c + " " + d)
  {
    var stripped := a + b + c + d;
    assert StripSpaces(a + " " + b + " " + c + " " + d) == stripped by {
      StripSpacesJoin(a + " " + b + " " + c, d);
      StripSpacesJoin(a + " " + b, c);
      StripSpacesJoin(a, b);
    }
    assert stripped[13] == d[1] == 'A';
  }

  /** Expiry check against the current calendar month; the current month is accepted
      and the month is not range-checked. */
  function ValidateExpiryDate(expMonth: int, expYear: int, now: Time.Today): (r: bool)
    ensures 1 <= expMonth <= 12 ==>
              (r <==> Time.MonthIndex(expYear, expMonth) >= Time.MonthIndex(now.year, now.month))
    ensures expYear > now.year ==> r
    ensures expYear < now.year ==> !r
    ensures expYear == now.year ==> (r <==> expMonth >= now.month)
  {
    !(expYear < now.year || (expYear == now.year && expMonth < now.month))
  }

  lemma ExpiryAcceptsCurrentMonth(now: Time.Today)
    ensures ValidateExpiryDate(now.month, now.year, now)
  {
  }

  /** No month-range check: 13 in the current year and 0 in a later year both pass. */
  lemma ExpiryHasNoMonthRange(now: Time.Today)
    ensures ValidateExpiryDate(13, now.year, now)
    ensures ValidateExpiryDate(0, now.year + 1, now)
    ensures !ValidateExpiryDate(0, now.year, now)
  {
  }

  /** Amounts must be strictly positive; there is no upper bound here. */
  function ValidateAmount(amount: real): (r: bool)
    ensures r <==> amount > 0.0
  {
    !(amount <= 0.0)
  }

  const SupportedCurrencies: seq<string> := ["USD", "EUR", "GBP"]

  function ValidateCurrency(currency: string): (r: bool)
    ensures r <==> currency == "USD" || currency == "EUR" || currency == "GBP"
  {
    Contains(SupportedCurrencies, currency)
  }

  /** CVVs: a non-negative number whose decimal rendering has exactly three digits. */
  function ValidateCVV(cvv: int): (r: bool)
    ensures r <==> cvv >= 0 && |Strconv.Itoa(cvv)| == 3
  {
    Strconv.ItoaWidthThree(cvv);
    !(cvv < 100 || cvv > 999)
  }

  /** A four-digit CVV never passes, nor does one below 100 (a leading zero, or negative). */
  lemma CvvRejectsFourDigitsAndLeadingZero(cvv: int)
    requires 1000 <= cvv <= 9999 || cvv < 100
    ensures !ValidateCVV(cvv)
  {
  }

  const MaskPrefix: string := "**** **** **** "

  /** Display form of a card number: everything but the last four characters hidden
      behind a fixed prefix; numbers of four characters or fewer are returned as is. */
  function MaskCardNumber(cardNumber: string): (masked: string)
    ensures |cardNumber| > 4 ==> |masked| == 19
    ensures |cardNumber| <= 4 ==> masked == cardNumber
  {
    if |cardNumber| > 4 then MaskPrefix + cardNumber[|cardNumber| - 4..] else cardNumber
  }

  /** A value in display form: the fixed prefix and four visible characters, or a
      short value shown unchanged. */
  predicate IsMasked(s: string)
  {
    |s| <= 4 || (|s| == 19 && s[..15] == MaskPrefix)
  }

  /** Masking shows at most the last four characters, keeps them, and is idempotent. */
  lemma MaskShowsOnlyLastFour(cardNumber: string)
    ensures IsMasked(MaskCardNumber(cardNumber))
    ensures var m := MaskCardNumber(cardNumber);
            |cardNumber| >= 4 ==> m[|m| - 4..] == cardNumber[|cardNumber| - 4..]
    ensures var m := MaskCardNumber(cardNumber);
            |cardNumber| > 4 ==> forall i :: 0 <= i < |m| - 4 ==> m[i] == '*' || m[i] == ' '
    ensures MaskCardNumber(MaskCardNumber(cardNumber)) == MaskCardNumber(cardNumber)
  {
    var m := MaskCardNumber(cardNumber);
    if |cardNumber| > 4 {
      assert m[..15] == MaskPrefix;
      assert m[15..] == cardNumber[|cardNumber| - 4..];
      assert m[|m| - 4..] == m[15..];
    }
  }

  /** Masking is idempotent on every value already in display form. */
  lemma MaskFixesMaskedValues(s: string)
    requires IsMasked(s)
    ensures MaskCardNumber(s) == s
  {
    if |s| > 4 {
      assert s == s[..15] + s[15..];
    }
  }

  /** The cases of utils/utils_test.go. */
  lemma UtilsTestVectors()
    ensures Contains(["USD", "EU", "CAD"], "EU")
    ensures Contains(["USD", "EU", "CAD"], "USD")
    ensures !Contains(["USD", "EU", "CAD"], "test currency")
    ensures !ValidateCardNumber("23456789012345")
    ensures !ValidateAmount(0.0) && !ValidateAmount(-100.0) && ValidateAmount(100.0)
  {
  }
}

/** `StringUtil.formatPhoneNumber`, `StringUtil.maskIdNumber` and the
    `ValidationUtil` predicates, with their regular expressions written out as
    character-class predicates. */
module Utils {
  import opened Text

  /** `formatPhoneNumber`: keep the digits; a ten-digit national number loses its
      leading digit to the `+27` country code, anything else just gets a `+`. */
  function FormatPhoneNumber(phone: string): string
  {
    var cleaned := Digits(phone);
    if |cleaned| == 10 then "+27" + cleaned[1..] else "+" + cleaned
  }

  lemma FormatPhoneNumberShape(phone: string)
    ensures var r := FormatPhoneNumber(phone);
      |r| >= 1 && r[0] == '+' && AllDigits(r[1..])
      && (|Digits(phone)| == 10 ==> |r| == 12 && r[..3] == "+27" && r[3..] == Digits(phone)[1..])
      && (|Digits(phone)| != 10 ==> r[1..] == Digits(phone))
  {
    var r := FormatPhoneNumber(phone);
    if |Digits(phone)| == 10 {
      assert r[1..] == "27" + Digits(phone)[1..];
    }
  }

  /** The digits of a formatted number are everything after its `+`. */
  lemma DigitsOfFormatted(phone: string)
    ensures Digits(FormatPhoneNumber(phone)) == FormatPhoneNumber(phone)[1..]
  {
    var r := FormatPhoneNumber(phone);
    FormatPhoneNumberShape(phone);
    assert r == [r[0]] + r[1..];
    DigitsConcat([r[0]], r[1..]);
    DigitsOfNonDigits([r[0]]);
  }

  /** Formatting an already formatted number changes nothing. */
  lemma FormatPhoneNumberIdempotent(phone: string)
    ensures FormatPhoneNumber(FormatPhoneNumber(phone)) == FormatPhoneNumber(phone)
  {
    var r := FormatPhoneNumber(phone);
    DigitsOfFormatted(phone);
    FormatPhoneNumberShape(phone);
    assert Digits(r) == r[1..];
    assert |Digits(r)| != 10;
    assert r == "+" + r[1..];
  }

  /** `maskIdNumber`: short inputs are returned as they are; otherwise the first
      four and the last two characters survive around four asterisks. */
  function MaskIdNumber(idNumber: string): string
  {
    if |idNumber| < 8 then idNumber
    else idNumber[..4] + "****" + idNumber[|idNumber| - 2..]
  }

  lemma MaskIdNumberShape(idNumber: string)
    ensures var r := MaskIdNumber(idNumber);
      (|idNumber| < 8 ==> r == idNumber)
      && (|idNumber| >= 8 ==>
            |r| == 10 && r[..4] == idNumber[..4] && r[4..8] == "****"
            && r[8..] == idNumber[|idNumber| - 2..])
  {
  }

  /** The masked characters do not influence the result: two long numbers with
      the same first four and last two characters mask alike. */
  lemma MaskIdNumberHidesMiddle(a: string, b: string)
    requires |a| >= 8 && |b| >= 8
    requires a[..4] == b[..4] && a[|a| - 2..] == b[|b| - 2..]
    ensures MaskIdNumber(a) == MaskIdNumber(b)
  {
  }

  /** Masking a masked number changes nothing. */
  lemma MaskIdNumberIdempotent(idNumber: string)
    ensures MaskIdNumber(MaskIdNumber(idNumber)) == MaskIdNumber(idNumber)
  {
    var r := MaskIdNumber(idNumber);
    if |idNumber| >= 8 {
      assert r[..4] + "****" + r[8..] == r;
    }
  }

  /** `isValidPhone`: ten or eleven digits once everything else is removed. */
  predicate IsValidPhone(phone: string)
  {
    var cleaned := Digits(phone);
    |cleaned| == 10 || |cleaned| == 11
  }

  /** A valid phone number formats to a twelve-character number that is still valid. */
  lemma FormatValidPhone(phone: string)
    requires IsValidPhone(phone)
    ensures |FormatPhoneNumber(phone)| == 12
    ensures IsValidPhone(FormatPhoneNumber(phone))
  {
    DigitsOfFormatted(phone);
    FormatPhoneNumberShape(phone);
  }

  /** The `^\d{n}$` pattern. */
  predicate MatchesDigitRun(s: string, n: nat)
  {
    |s| == n && AllDigits(s)
  }

  /** `isValidSouthAfricanId`: the empty and wrong-length guard, then `^\d{13}$`. */
  predicate IsValidSouthAfricanId(id: string)
  {
    if id == "" || |id| != 13 then false else MatchesDigitRun(id, 13)
  }

  lemma IsValidSouthAfricanIdIff(id: string)
    ensures IsValidSouthAfricanId(id) <==> |id| == 13 && forall i :: 0 <= i < |id| ==> '0' <= id[i] <= '9'
  {
  }

  /** The `[^\s@]` class. */
  predicate EmailChar(c: char)
  {
    !IsWhitespace(c) && c != '@'
  }

  /** `[^\s@]+`. */
  predicate EmailChars(s: string)
  {
    |s| >= 1 && forall i :: 0 <= i < |s| ==> EmailChar(s[i])
  }

  /** `isValidEmail`, the pattern `^[^\s@]+@[^\s@]+\.[^\s@]+$`: the input splits
      at an `@` (index `a`) and a later `.` (index `d`) into three non-empty runs
      of `[^\s@]`. */
  predicate IsValidEmail(email: string)
  {
    exists a, d | 0 < a && a + 1 < d < |email| - 1 :: SplitsAt(email, a, d)
  }

  predicate SplitsAt(email: string, a: int, d: int)
    requires 0 < a && a + 1 < d < |email| - 1
  {
    email[a] == '@' && email[d] == '.'
    && EmailChars(email[..a]) && EmailChars(email[a + 1..d]) && EmailChars(email[d + 1..])
  }

  predicate NoWhitespace(s: string)
  {
    forall i :: 0 <= i < |s| ==> !IsWhitespace(s[i])
  }

  /** Index `a` holds the only `@` of `s`. */
  predicate SoleAt(s: string, a: int)
  {
    0 <= a < |s| && s[a] == '@' && forall i :: 0 <= i < |s| && i != a ==> s[i] != '@'
  }

  /** Some `.` after index `a + 1` that is not the last character. */
  predicate DotAfter(s: string, a: int)
  {
    exists d :: 0 <= a + 1 < d < |s| - 1 && s[d] == '.'
  }

  /** The plain description of an acceptable address. */
  predicate EmailShape(email: string)
  {
    NoWhitespace(email) && exists a :: 0 < a < |email| && SoleAt(email, a) && DotAfter(email, a)
  }

  lemma ShapeOfSplit(email: string, a: int, d: int)
    requires 0 < a && a + 1 < d < |email| - 1 && SplitsAt(email, a, d)
    ensures NoWhitespace(email) && SoleAt(email, a) && DotAfter(email, a)
  {
    forall i | 0 <= i < |email| && i != a
      ensures !IsWhitespace(email[i]) && email[i] != '@'
    {
      if i < a {
        assert email[i] == email[..a][i];
      } else if i < d {
        assert email[i] == email[a + 1..d][i - a - 1];
      } else if i > d {
        assert email[i] == email[d + 1..][i - d - 1];
      }
    }
  }

  lemma SplitOfShape(email: string, a: int, d: int)
    requires NoWhitespace(email) && 0 < a && SoleAt(email, a)
    requires a + 1 < d < |email| - 1 && email[d] == '.'
    ensures SplitsAt(email, a, d)
  {
    assert EmailChars(email[..a]);
    assert EmailChars(email[a + 1..d]);
    assert EmailChars(email[d + 1..]);
  }

  /** The pattern accepts exactly the inputs without whitespace that hold one `@`,
      not in first place, followed somewhere by a `.` that is neither the first
      character after the `@` nor the last character. */
  lemma IsValidEmailIff(email: string)
    ensures IsValidEmail(email) <==> EmailShape(email)
  {
    if IsValidEmail(email) {
      var a, d :| 0 < a && a + 1 < d < |email| - 1 && SplitsAt(email, a, d);
      ShapeOfSplit(email, a, d);
    }
    if EmailShape(email) {
      var a :| 0 < a < |email| && SoleAt(email, a) && DotAfter(email, a);
      var d :| 0 <= a + 1 < d < |email| - 1 && email[d] == '.';
      SplitOfShape(email, a, d);
    }
  }

  /** `isValidBankAccount`: between nine and seventeen characters. */
  predicate IsValidBankAccount(account: string)
  {
    9 <= |account| <= 17
  }

  /** Both ends of the accepted range are inclusive, and one character
      outside either end is refused. */
  lemma BankAccountBoundary(account: string)
    ensures |account| == 8 || |account| == 18 ==> !IsValidBankAccount(account)
    ensures |account| == 9 || |account| == 17 ==> IsValidBankAccount(account)
  {
  }
}

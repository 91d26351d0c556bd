/**
 * The phone-number patterns, written out as predicates.
 *
 * The model field's validator and the bulk mutation use
 *   ^\+?1?-?\d{3}-?\d{3}-?\d{4}$|^\+?\d{10,15}$
 * and the single-customer mutation uses the same pattern without the final
 * `$`, so under `re.match` its second alternative only asks for at least ten
 * digits after an optional `+` at the start of the string.
 * Each predicate below stands for one suffix of the first alternative, read
 * from the right, so that an optional token is a plain disjunction.
 */
module Phone {

  predicate IsDigit(c: char) {
    '0' <= c <= '9'
  }

  predicate AllDigits(s: string) {
    forall i :: 0 <= i < |s| ==> IsDigit(s[i])
  }

  predicate StartsWith(s: string, c: char) {
    |s| > 0 && s[0] == c
  }

  /** `\d{4}$` */
  predicate LineNumber(s: string) {
    |s| == 4 && AllDigits(s)
  }

  /** `-?\d{4}$` */
  predicate DashLineNumber(s: string) {
    LineNumber(s) || (StartsWith(s, '-') && LineNumber(s[1..]))
  }

  /** `\d{3}-?\d{4}$` */
  predicate Exchange(s: string) {
    |s| >= 3 && AllDigits(s[..3]) && DashLineNumber(s[3..])
  }

  /** `-?\d{3}-?\d{4}$` */
  predicate DashExchange(s: string) {
    Exchange(s) || (StartsWith(s, '-') && Exchange(s[1..]))
  }

  /** `\d{3}-?\d{3}-?\d{4}$` */
  predicate AreaCode(s: string) {
    |s| >= 3 && AllDigits(s[..3]) && DashExchange(s[3..])
  }

  /** `-?\d{3}-?\d{3}-?\d{4}$` */
  predicate DashAreaCode(s: string) {
    AreaCode(s) || (StartsWith(s, '-') && AreaCode(s[1..]))
  }

  /** `1?-?\d{3}-?\d{3}-?\d{4}$` */
  predicate CountryCode(s: string) {
    DashAreaCode(s) || (StartsWith(s, '1') && DashAreaCode(s[1..]))
  }

  /** First alternative, `^\+?1?-?\d{3}-?\d{3}-?\d{4}$` (identical in all three copies). */
  predicate GroupedFormat(s: string) {
    CountryCode(s) || (StartsWith(s, '+') && CountryCode(s[1..]))
  }

  /** `\d{10,15}$` */
  predicate DigitRun(s: string) {
    10 <= |s| <= 15 && AllDigits(s)
  }

  /** Second alternative, anchored: `^\+?\d{10,15}$`. */
  predicate InternationalFormat(s: string) {
    DigitRun(s) || (StartsWith(s, '+') && DigitRun(s[1..]))
  }

  /** `\d{10,15}` with no end anchor: ten digits are enough, anything may follow. */
  predicate DigitPrefix(s: string) {
    |s| >= 10 && AllDigits(s[..10])
  }

  /** Second alternative as the single-customer mutation writes it: `^\+?\d{10,15}`. */
  predicate InternationalPrefix(s: string) {
    DigitPrefix(s) || (StartsWith(s, '+') && DigitPrefix(s[1..]))
  }

  /** The pattern of the model field's validator and of the bulk mutation. */
  predicate ValidPhone(s: string) {
    GroupedFormat(s) || InternationalFormat(s)
  }

  /** The pattern of the single-customer mutation. */
  predicate AcceptedByCreateCustomer(s: string) {
    GroupedFormat(s) || InternationalPrefix(s)
  }

  /** Characters a fully anchored phone number may contain. */
  predicate PhoneChar(c: char) {
    IsDigit(c) || c == '+' || c == '-'
  }

  predicate PhoneChars(s: string) {
    forall i :: 0 <= i < |s| ==> PhoneChar(s[i])
  }

  /** A prefix of phone characters in front of a phone-character suffix. */
  lemma PhoneCharsJoin(s: string, k: nat)
    requires k <= |s|
    requires PhoneChars(s[..k]) && PhoneChars(s[k..])
    ensures PhoneChars(s)
  {
    forall i | 0 <= i < |s| ensures PhoneChar(s[i]) {
      if i < k { assert s[i] == s[..k][i]; } else { assert s[i] == s[k..][i - k]; }
    }
  }

  lemma DigitsArePhoneChars(s: string)
    requires AllDigits(s)
    ensures PhoneChars(s)
  {
  }

  /** One optional leading character `c` in front of a phone-character suffix. */
  lemma OptionalLead(s: string, c: char)
    requires StartsWith(s, c) && PhoneChar(c) && PhoneChars(s[1..])
    ensures PhoneChars(s)
  {
    PhoneCharsJoin(s, 1);
  }

  /** Three digits in front of a phone-character suffix. */
  lemma DigitGroup(s: string)
    requires |s| >= 3 && AllDigits(s[..3]) && PhoneChars(s[3..])
    ensures PhoneChars(s)
  {
    PhoneCharsJoin(s, 3);
  }

  lemma {:induction false} DashLineNumberShape(s: string)
    requires DashLineNumber(s)
    ensures 4 <= |s| <= 5 && PhoneChars(s) && IsDigit(s[|s| - 1])
  {
    if !LineNumber(s) { OptionalLead(s, '-'); }
  }

  lemma {:induction false} DashExchangeShape(s: string)
    requires DashExchange(s)
    ensures 7 <= |s| <= 9 && PhoneChars(s) && IsDigit(s[|s| - 1])
  {
    if Exchange(s) {
      DashLineNumberShape(s[3..]);
      DigitGroup(s);
    } else {
      var t := s[1..];
      DashLineNumberShape(t[3..]);
      DigitGroup(t);
      OptionalLead(s, '-');
    }
  }

  lemma {:induction false} CountryCodeShape(s: string)
    requires CountryCode(s)
    ensures 10 <= |s| <= 14 && PhoneChars(s) && IsDigit(s[|s| - 1])
  {
    var t := if DashAreaCode(s) then s else s[1..];
    var u := if AreaCode(t) then t else t[1..];
    assert AreaCode(u);
    DashExchangeShape(u[3..]);
    DigitGroup(u);
    if u != t { OptionalLead(t, '-'); }
    if t != s { OptionalLead(s, '1'); }
  }

  /**
   * Everything the anchored pattern accepts is 10 to 16 characters long,
   * made only of digits, `+` and `-`, and ends in a digit.
   */
  lemma {:induction false} ValidPhoneShape(s: string)
    requires ValidPhone(s)
    ensures 10 <= |s| <= 16
    ensures PhoneChars(s)
    ensures IsDigit(s[|s| - 1])
  {
    if GroupedFormat(s) {
      if CountryCode(s) {
        CountryCodeShape(s);
      } else {
        CountryCodeShape(s[1..]);
        OptionalLead(s, '+');
      }
    } else if DigitRun(s) {
      DigitsArePhoneChars(s);
    } else {
      DigitsArePhoneChars(s[1..]);
      OptionalLead(s, '+');
    }
  }

  /** The single-customer pattern accepts everything the anchored pattern accepts. */
  lemma ValidPhoneIsAccepted(s: string)
    requires ValidPhone(s)
    ensures AcceptedByCreateCustomer(s)
  {
    if !GroupedFormat(s) {
      var t := if DigitRun(s) then s else s[1..];
      assert forall i :: 0 <= i < 10 ==> t[..10][i] == t[i];
    }
  }

  /** Both formats named in the rejection message are accepted by both patterns. */
  lemma DocumentedFormats()
    ensures ValidPhone("+1234567890")
    ensures ValidPhone("123-456-7890")
  {
    var a := "+1234567890";
    assert a[1..] == "1234567890";
    assert DigitRun(a[1..]);
    var b := "123-456-7890";
    assert b[..3] == "123" && b[3..] == "-456-7890";
    var e := b[4..];
    assert e[..3] == "456" && e[3..] == "-7890";
    assert LineNumber(e[4..]);
    assert DashLineNumber(e[3..]);
    assert Exchange(e);
    assert DashExchange(b[3..]);
    assert AreaCode(b);
  }

  /**
   * The two copies differ: text after ten leading digits passes the
   * single-customer pattern and fails the anchored one.
   */
  lemma TrailingTextDivergence()
    ensures AcceptedByCreateCustomer("1234567890x")
    ensures !ValidPhone("1234567890x")
  {
    var s := "1234567890x";
    assert s[..10] == "1234567890";
    assert DigitPrefix(s);
    if ValidPhone(s) {
      ValidPhoneShape(s);
      assert false;
    }
  }
}

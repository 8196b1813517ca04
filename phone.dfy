/**
 * Telephone numbers: `cleanPhone`, `formatPhone` and the `tel:` link that
 * `openDialer` follows (app/dashboard/lib/utils.ts:56-66, 98-102).
 * Numbers are North American (NANP, country code 1 in ITU-T E.164).
 */
module Phone {
  import opened Js

  /** `d.startsWith("1") && d.length === 11 ? d.slice(1) : d` on the digits of the input. */
  function CleanPhone(phone: string): (r: string)
    ensures AllDigits(r)
  {
    var d := Digits(phone);
    if |d| == 11 && d[0] == '1' then d[1..] else d
  }

  /** Cleaning drops at most one character, and only a leading country code 1 from eleven digits. */
  lemma CleanPhoneDropsCountryCode(phone: string)
    ensures CleanPhone(phone) == Digits(phone) || Digits(phone) == "1" + CleanPhone(phone)
    ensures CleanPhone(phone) != Digits(phone) <==> |Digits(phone)| == 11 && Digits(phone)[0] == '1'
    ensures |CleanPhone(phone)| != 11 || CleanPhone(phone)[0] != '1'
  {
    var d := Digits(phone);
    if |d| == 11 && d[0] == '1' {
      assert d == "1" + d[1..];
    }
  }

  /** A cleaned number is already clean. */
  lemma CleanPhoneIdempotent(phone: string)
    ensures CleanPhone(CleanPhone(phone)) == CleanPhone(phone)
  {
    var c := CleanPhone(phone);
    assert Digits(c) == c;
  }

  /** `(AAA) BBB-CCCC` for a ten-digit cleaned number; any other input is returned as given. */
  function FormatPhone(phone: string): string
  {
    var c := CleanPhone(phone);
    if |c| == 10 then "(" + c[..3] + ") " + c[3..6] + "-" + c[6..] else phone
  }

  /** The `(AAA) BBB-CCCC` shape. */
  predicate Formatted(f: string)
  {
    |f| == 14 && f[0] == '(' && f[4] == ')' && f[5] == ' ' && f[9] == '-'
    && AllDigits(f[1..4]) && AllDigits(f[6..9]) && AllDigits(f[10..])
  }

  lemma {:induction false} FormattedDigits(f: string)
    requires Formatted(f)
    ensures Digits(f) == f[1..4] + f[6..9] + f[10..]
  {
    assert f[9..][1..] == f[10..] && f[5..][1..] == f[6..] && f[4..][1..] == f[5..] && f[1..] == f[..][1..];
    assert Digits(f[9..]) == f[10..];
    assert f[6..] == f[6..9] + f[9..];
    DigitsConcat(f[6..9], f[9..]);
    assert Digits(f[4..]) == f[6..9] + f[10..];
    assert f[1..] == f[1..4] + f[4..];
    DigitsConcat(f[1..4], f[4..]);
  }

  /**
   * The result has the `(AAA) BBB-CCCC` shape exactly when the cleaned number has ten
   * digits, and formatting keeps the number: cleaning it again gives the cleaned original.
   */
  lemma {:induction false} FormatPhoneKeepsNumber(phone: string)
    ensures Formatted(FormatPhone(phone)) <==> |CleanPhone(phone)| == 10
    ensures CleanPhone(FormatPhone(phone)) == CleanPhone(phone)
    ensures |CleanPhone(phone)| != 10 ==> FormatPhone(phone) == phone
  {
    var c := CleanPhone(phone);
    var f := FormatPhone(phone);
    if |c| == 10 {
      assert f[1..4] == c[..3] && f[6..9] == c[3..6] && f[10..] == c[6..];
      FormattedDigits(f);
      assert f[1..4] + f[6..9] + f[10..] == c;
    } else if Formatted(f) {
      FormattedDigits(f);
      assert false;
    }
  }

  /** `a.href = "tel:+1" + phone` (a `tel` URI, RFC 3966). */
  function TelHref(phone: string): (r: string)
    ensures StartsWith(r, "tel:+1") && r[6..] == phone
  {
    "tel:+1" + phone
  }
}

/** strconv.FormatInt and strconv.ParseInt in base 10, and the strict parser built on them. */
module Decimal {
  import opened Prelude
  import opened SafeText

  function Digit(d: nat): char
    requires d < 10
  {
    '0' + d as char
  }

  function FormatNat(n: nat): string {
    if n < 10 then [Digit(n)] else FormatNat(n / 10) + [Digit(n % 10)]
  }

  function FormatInt(n: int): string {
    if n < 0 then "-" + FormatNat(-n) else FormatNat(n)
  }

  predicate IsDigit(c: char) {
    '0' <= c <= '9'
  }

  predicate AllDigits(s: string) {
    forall i :: 0 <= i < |s| ==> IsDigit(s[i])
  }

  function ValueOf(s: string): nat
    requires AllDigits(s)
  {
    if s == "" then 0 else 10 * ValueOf(s[..|s| - 1]) + (s[|s| - 1] - '0') as int
  }

  /** strconv.ParseInt(s, 10, 64): an optional sign, at least one digit, a value that fits. */
  function ParseInt(s: string): Option<int> {
    var signed := s != "" && (s[0] == '-' || s[0] == '+');
    var digits := if signed then s[1..] else s;
    if digits == "" || !AllDigits(digits) then None
    else
      var magnitude: int := ValueOf(digits);
      var n := if signed && s[0] == '-' then -magnitude else magnitude;
      if IsInt64(n) then Some(n) else None
  }

  /** parseCanonicalInt64: only what FormatInt prints. */
  function ParseCanonical(s: string): Option<int> {
    if s == "" || TrimSpace(s) != s || s[0] == '+' then None
    else
      var n := ParseInt(s);
      if n.Some? && FormatInt(n.value) == s then n else None
  }

  lemma {:induction false} FormatNatIsDigits(n: nat)
    ensures AllDigits(FormatNat(n)) && FormatNat(n) != "" && ValueOf(FormatNat(n)) == n
  {
    if n < 10 {
    } else {
      FormatNatIsDigits(n / 10);
      var front := FormatNat(n / 10);
      assert FormatNat(n)[..|FormatNat(n)| - 1] == front;
    }
  }

  lemma {:induction false} FormatNatLength(n: nat, bound: nat, digits: nat)
    requires 1 <= digits && n < bound && bound == Power10(digits)
    ensures |FormatNat(n)| <= digits
  {
    if n < 10 {
    } else {
      FormatNatLength(n / 10, Power10(digits - 1), digits - 1);
    }
  }

  function Power10(e: nat): nat {
    if e == 0 then 1 else 10 * Power10(e - 1)
  }

  predicate IsDecimalChar(c: char) {
    IsDigit(c) || c == '-'
  }

  /** Everything a printed number is made of: at most 20 digits and minus signs. */
  lemma FormatIntShape(n: int)
    ensures FormatInt(n) != ""
    ensures forall i :: 0 <= i < |FormatInt(n)| ==> IsDecimalChar(FormatInt(n)[i])
    ensures IsInt64(n) ==> |FormatInt(n)| <= 20
  {
    var m := if n < 0 then -n else n;
    FormatNatIsDigits(m);
    if IsInt64(n) {
      assert Power10(5) == 100_000;
      assert Power10(10) == 10_000_000_000;
      assert Power10(15) == 1_000_000_000_000_000;
      assert Power10(19) == 10_000_000_000_000_000_000;
      FormatNatLength(m, Power10(19), 19);
    }
  }

  lemma ParseOfFormat(n: int)
    requires IsInt64(n)
    ensures ParseInt(FormatInt(n)) == Some(n)
  {
    FormatNatIsDigits(if n < 0 then -n else n);
    if n >= 0 { assert IsDigit(FormatNat(n)[0]); }
  }

  /** The strict parser accepts exactly the printed forms of int64 values, and inverts the printer. */
  lemma CanonicalRoundTrip(s: string, n: int)
    ensures ParseCanonical(s) == Some(n) <==> IsInt64(n) && s == FormatInt(n)
  {
    if IsInt64(n) && s == FormatInt(n) {
      ParseOfFormat(n);
      FormatIntShape(n);
      FormatNatIsDigits(if n < 0 then -n else n);
      TrimSpaceOfTrimmed(s);
    }
  }
}

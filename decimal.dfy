/** Decimal text of integers as it crosses the HTTP form: the browser sends
    `n.toString()` for an integer-valued number, and the Python handler reads
    it back with `int(s)`. */
module Decimal {

  import opened Basics

  predicate IsDigit(c: char) {
    '0' <= c <= '9'
  }

  predicate AllDigits(s: string) {
    forall i :: 0 <= i < |s| ==> IsDigit(s[i])
  }

  function DigitChar(d: nat): (c: char)
    requires d < 10
    ensures IsDigit(c) && (c as int) - ('0' as int) == d
  {
    (('0' as int) + d) as char
  }

  /** The value of a string of decimal digits, most significant first. */
  function DigitsValue(s: string): (n: nat)
    requires AllDigits(s)
  {
    if s == [] then 0
    else DigitsValue(s[..|s| - 1]) * 10 + ((s[|s| - 1] as int) - ('0' as int))
  }

  /** JavaScript's `Number.prototype.toString()` on a non-negative integer:
      shortest decimal form, no leading zeros. */
  function ShowNat(n: nat): (s: string)
    ensures |s| >= 1 && AllDigits(s)
    ensures |s| > 1 ==> s[0] != '0'
  {
    if n < 10 then [DigitChar(n)] else ShowNat(n / 10) + [DigitChar(n % 10)]
  }

  /** JavaScript's `toString()` on an integer-valued number. */
  function ShowInt(n: int): (s: string)
    ensures |s| >= 1
    ensures n < 0 <==> s[0] == '-'
  {
    if n < 0 then "-" + ShowNat(-n) else ShowNat(n)
  }

  /** CPython's default `sys.int_max_str_digits`: `int(s)` on a decimal
      string with more digits than this raises `ValueError`. */
  const MaxStrDigits := 4300

  /** The largest integer JavaScript's `Number.isSafeInteger` accepts,
      2^53 - 1: every integer up to it is held exactly and printed in
      positional notation. */
  const MaxSafeInteger := 0x1f_ffff_ffff_ffff

  predicate IsSafeInteger(n: int) {
    -MaxSafeInteger <= n <= MaxSafeInteger
  }

  /** The text after an optional leading sign. */
  function Unsigned(s: string): string {
    if |s| >= 1 && (s[0] == '-' || s[0] == '+') then s[1..] else s
  }

  /** Python's `int(s)` restricted to an optional sign followed by ASCII digits;
      `None` stands for the `ValueError` it raises, also when there are more
      digits than `MaxStrDigits`. */
  function ParseInt(s: string): (r: Option<int>)
    ensures r.Some? <==> 1 <= |Unsigned(s)| <= MaxStrDigits && AllDigits(Unsigned(s))
    ensures r.Some? ==> (r.value < 0 ==> s[0] == '-')
  {
    var digits := Unsigned(s);
    if |digits| == 0 || |digits| > MaxStrDigits || !AllDigits(digits) then None
    else if s[0] == '-' then var v: int := DigitsValue(digits); Some(-v)
    else Some(DigitsValue(digits))
  }

  function Pow10(k: nat): (p: nat)
    ensures p >= 1
  {
    if k == 0 then 1 else 10 * Pow10(k - 1)
  }

  /** A number below 10^(k+1) is written with at most k + 1 digits. */
  lemma {:induction false} ShowNatLength(n: nat, k: nat)
    requires n < Pow10(k + 1)
    ensures |ShowNat(n)| <= k + 1
  {
    if n >= 10 {
      assert k >= 1;
      ShowNatLength(n / 10, k - 1);
    }
  }

  lemma {:induction false} Pow10Add(a: nat, b: nat)
    ensures Pow10(a + b) == Pow10(a) * Pow10(b)
  {
    if a > 0 {
      Pow10Add(a - 1, b);
    }
  }

  /** A safe integer has at most 16 digits, far below the `int()` limit. */
  lemma SafeIntegerDigits(n: nat)
    requires n <= MaxSafeInteger
    ensures |ShowNat(n)| <= 16 < MaxStrDigits
  {
    assert Pow10(4) == 10_000;
    Pow10Add(4, 4);
    Pow10Add(8, 8);
    ShowNatLength(n, 15);
  }

  /** Reading back what `ShowNat` wrote gives the number. */
  lemma {:induction false} DigitsOfShowNat(n: nat)
    ensures DigitsValue(ShowNat(n)) == n
  {
    var s := ShowNat(n);
    if n >= 10 {
      assert s[..|s| - 1] == ShowNat(n / 10);
      DigitsOfShowNat(n / 10);
    }
  }

  /** Every safe integer the browser sends arrives at the handler unchanged. */
  lemma ParseShowInt(n: int)
    requires IsSafeInteger(n)
    ensures ParseInt(ShowInt(n)) == Some(n)
  {
    if n < 0 {
      ParseShowNegative(-n);
    } else {
      ParseShowNat(n);
    }
  }

  lemma ParseShowNat(n: nat)
    requires n <= MaxSafeInteger
    ensures ParseInt(ShowNat(n)) == Some(n)
  {
    var s := ShowNat(n);
    assert IsDigit(s[0]);
    assert Unsigned(s) == s;
    SafeIntegerDigits(n);
    DigitsOfShowNat(n);
  }

  lemma ParseShowNegative(n: nat)
    requires 0 < n <= MaxSafeInteger
    ensures ParseInt("-" + ShowNat(n)) == Some(-(n as int))
  {
    var s := "-" + ShowNat(n);
    assert Unsigned(s) == ShowNat(n);
    SafeIntegerDigits(n);
    DigitsOfShowNat(n);
  }

  /** Distinct safe integers are sent as distinct strings. */
  lemma ShowIntInjective(m: int, n: int)
    requires IsSafeInteger(m) && IsSafeInteger(n)
    requires ShowInt(m) == ShowInt(n)
    ensures m == n
  {
    ParseShowInt(m);
    ParseShowInt(n);
  }
}

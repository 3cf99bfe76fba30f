/**
 * Java's decimal text for `int` values: `String.valueOf(int)` and
 * `Integer.parseInt(String)`. The enrichment step writes a pitch class as text
 * and reads it back with these two.
 */
module JavaInt {
  import opened Wrappers

  const MinInt: int := -0x8000_0000
  const MaxInt: int := 0x7fff_ffff

  /** The values of a Java `int`. */
  type Int32 = x: int | MinInt <= x <= MaxInt

  predicate IsDigit(c: char) {
    '0' <= c <= '9'
  }

  predicate AllDigits(s: string) {
    forall i :: 0 <= i < |s| ==> IsDigit(s[i])
  }

  function DigitChar(d: nat): (c: char)
    requires d < 10
    ensures IsDigit(c) && c as int - '0' as int == d
  {
    ('0' as int + d) as char
  }

  /** Decimal digits of `n`, most significant first, without leading zeros. */
  function NatToString(n: nat): (s: string)
    ensures |s| > 0 && AllDigits(s)
    ensures s[0] == '0' ==> n == 0
  {
    if n < 10 then [DigitChar(n)] else NatToString(n / 10) + [DigitChar(n % 10)]
  }

  /** The number a string of decimal digits denotes. */
  function DigitsValue(s: string): nat
    requires AllDigits(s)
  {
    if s == [] then 0
    else DigitsValue(s[..|s| - 1]) * 10 + (s[|s| - 1] as int - '0' as int)
  }

  /** `String.valueOf(int)`: a minus sign for negative values, then the digits. */
  function IntToString(n: int): string {
    if n < 0 then "-" + NatToString(-n) else NatToString(n)
  }

  /** The text after an optional leading '-' or '+'. */
  function Unsigned(t: string): string {
    if |t| > 0 && (t[0] == '-' || t[0] == '+') then t[1..] else t
  }

  /**
   * `Integer.parseInt(String)`: an optional sign, at least one digit, and a
   * value that fits an `int`; anything else (null included) throws
   * NumberFormatException, here `None`. Only the ASCII digits '0'..'9' are
   * digits here; Java's `Character.digit` also accepts the decimal digits of
   * other scripts. The value itself is pinned by ParseIntOfIntToString for
   * every text `String.valueOf` writes, which is all the program parses.
   */
  function ParseInt(s: Option<string>): (r: Option<Int32>)
    ensures s.None? ==> r.None?
    ensures r.Some? ==> s.Some? && |Unsigned(s.value)| > 0 && AllDigits(Unsigned(s.value))
    ensures r.Some? && r.value < 0 ==> s.value[0] == '-'
    ensures s.Some? && 0 < |Unsigned(s.value)| <= 9 && AllDigits(Unsigned(s.value)) ==> r.Some?
  {
    match s
    case None => None
    case Some(t) =>
      var digits := Unsigned(t);
      if |digits| == 0 || !AllDigits(digits) then None
      else
        DigitsValueBelow(digits);
        var v: int := if t[0] == '-' then -(DigitsValue(digits) as int) else DigitsValue(digits);
        if MinInt <= v <= MaxInt then Some(v) else None
  }

  function Pow10(n: nat): (p: nat)
    ensures p >= 1
  {
    if n == 0 then 1 else 10 * Pow10(n - 1)
  }

  /** `n` digits denote less than `10^n`; nine fit an `int`. */
  lemma {:induction false} DigitsValueBelow(s: string)
    requires AllDigits(s)
    ensures DigitsValue(s) < Pow10(|s|)
    ensures |s| <= 9 ==> DigitsValue(s) <= MaxInt
  {
    if s != [] {
      DigitsValueBelow(s[..|s| - 1]);
    }
    if |s| <= 9 {
      Pow10Grows(|s|, 9);
      assert Pow10(9) == 1_000_000_000;
    }
  }

  lemma {:induction false} Pow10Grows(m: nat, n: nat)
    requires m <= n
    ensures Pow10(m) <= Pow10(n)
  {
    if m < n {
      Pow10Grows(m, n - 1);
    }
  }

  lemma {:induction false} DigitsOfNatToString(n: nat)
    ensures DigitsValue(NatToString(n)) == n
  {
    if n >= 10 {
      var s := NatToString(n);
      assert s[..|s| - 1] == NatToString(n / 10);
      DigitsOfNatToString(n / 10);
    }
  }

  /** `Integer.parseInt` reads back every `int` that `String.valueOf` wrote. */
  lemma ParseIntOfIntToString(n: Int32)
    ensures ParseInt(Some(IntToString(n))) == Some(n)
  {
    var t := IntToString(n);
    if n < 0 {
      var d := NatToString(-(n as int));
      assert t == "-" + d;
      assert t[0] == '-' && t[1..] == d;
      DigitsOfNatToString(-(n as int));
    } else {
      var d := NatToString(n);
      assert t == d && IsDigit(t[0]);
      DigitsOfNatToString(n);
    }
  }
}

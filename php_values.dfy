/**
 * The scalar values a fetched database row holds, and PHP's `(string)` cast
 * of them, which is how toArray turns a derived key into an array key.
 */
module PhpValues {

  /** A column value as the database layer hands it over (floats are not modelled). */
  datatype Value = Null | Bool(b: bool) | Int(i: int) | Str(s: string)

  /** The decimal digit character for `d`. */
  function Digit(d: nat): (c: char)
    requires d < 10
    ensures '0' <= c <= '9'
  {
    ('0' as int + d) as char
  }

  /** PHP's decimal rendering of a non-negative integer: no sign, no leading zeros. */
  function NatToDecimal(n: nat): (s: string)
    ensures |s| >= 1
    ensures forall i :: 0 <= i < |s| ==> '0' <= s[i] <= '9'
    ensures s[0] == '0' ==> n == 0
    decreases n
  {
    if n < 10 then [Digit(n)] else NatToDecimal(n / 10) + [Digit(n % 10)]
  }

  /** Two different non-negative integers never share a decimal rendering. */
  lemma {:induction false} NatToDecimalInjective(a: nat, b: nat)
    requires NatToDecimal(a) == NatToDecimal(b)
    ensures a == b
    decreases a
  {
    var sa, sb := NatToDecimal(a), NatToDecimal(b);
    if a < 10 && b < 10 {
      assert sa[0] == Digit(a) && sb[0] == Digit(b);
    } else if 10 <= a && 10 <= b {
      var pa, pb := NatToDecimal(a / 10), NatToDecimal(b / 10);
      assert sa == pa + [Digit(a % 10)] && sb == pb + [Digit(b % 10)];
      assert |pa| == |pb|;
      assert pa == sa[..|pa|] == sb[..|pb|] == pb;
      assert Digit(a % 10) == sa[|pa|] == sb[|pb|] == Digit(b % 10);
      NatToDecimalInjective(a / 10, b / 10);
    }
  }

  /** PHP's decimal rendering of an integer, with a leading minus sign when negative. */
  function IntToDecimal(i: int): (s: string)
    ensures |s| >= 1
    ensures i >= 0 ==> s == NatToDecimal(i)
  {
    if i < 0 then "-" + NatToDecimal(-i) else NatToDecimal(i)
  }

  /** Two different integers never share a decimal rendering: a sign is never a digit. */
  lemma IntToDecimalInjective(a: int, b: int)
    requires IntToDecimal(a) == IntToDecimal(b)
    ensures a == b
  {
    var sa, sb := IntToDecimal(a), IntToDecimal(b);
    if a < 0 && b < 0 {
      assert NatToDecimal(-a) == sa[1..] == sb[1..] == NatToDecimal(-b);
      NatToDecimalInjective(-a, -b);
    } else if 0 <= a && 0 <= b {
      NatToDecimalInjective(a, b);
    }
  }

  /** PHP's `(string)` cast: null and false become "", true becomes "1". */
  function ToString(v: Value): (s: string)
    ensures s == "" <==> v == Null || v == Bool(false) || v == Str("")
  {
    match v
    case Null => ""
    case Bool(b) => if b then "1" else ""
    case Int(i) => IntToDecimal(i)
    case Str(s) => s
  }
}

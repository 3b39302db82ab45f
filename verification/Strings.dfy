/** The few Python string operations the context command relies on, over `seq<char>`. */
module Strings {

  /** `n` blanks. */
  function Spaces(n: nat): (r: string)
    ensures |r| == n
    ensures forall i :: 0 <= i < n ==> r[i] == ' '
  {
    seq(n, _ => ' ')
  }

  /** Python's `str.ljust(width)`: pads on the right with blanks up to `width`
      and never truncates. */
  function LJust(s: string, width: nat): (r: string)
    ensures |r| == if |s| < width then width else |s|
    ensures r[..|s|] == s
    ensures forall i :: |s| <= i < |r| ==> r[i] == ' '
  {
    if |s| < width then s + Spaces(width - |s|) else s
  }

  /** Python's `str.upper()` on one ASCII character. */
  function UpperChar(c: char): (u: char)
    ensures !('a' <= u <= 'z')
    ensures 'a' <= c <= 'z' ==> 'A' <= u <= 'Z'
    ensures !('a' <= c <= 'z') ==> u == c
  {
    if 'a' <= c <= 'z' then (c as int - 'a' as int + 'A' as int) as char else c
  }

  /** Python's `str.upper()` on ASCII text: letter by letter, length kept. */
  function Upper(s: string): (r: string)
    ensures |r| == |s|
    ensures forall i :: 0 <= i < |s| ==> r[i] == UpperChar(s[i])
  {
    seq(|s|, i requires 0 <= i < |s| => UpperChar(s[i]))
  }

  function DecimalDigit(d: nat): (c: char)
    requires d < 10
    ensures '0' <= c <= '9'
  {
    ('0' as int + d) as char
  }

  /** Python's `str(n)` for a non-negative integer. */
  function NatToString(n: nat): (r: string)
    ensures |r| >= 1
    ensures forall i :: 0 <= i < |r| ==> '0' <= r[i] <= '9'
    ensures n < 10 ==> r == [DecimalDigit(n)]
  {
    if n < 10 then [DecimalDigit(n)] else NatToString(n / 10) + [DecimalDigit(n % 10)]
  }

  /** The value of one lower-case hexadecimal digit. */
  function HexDigitValue(c: char): nat
  {
    if '0' <= c <= '9' then c as int - '0' as int
    else if 'a' <= c <= 'f' then c as int - 'a' as int + 10
    else 0
  }

  /** The number a string of hexadecimal digits spells, most significant first. */
  function HexValue(digits: string): nat
  {
    if digits == [] then 0
    else HexValue(digits[..|digits| - 1]) * 16 + HexDigitValue(digits[|digits| - 1])
  }

  function HexDigit(d: nat): (c: char)
    requires d < 16
    ensures '0' <= c <= '9' || 'a' <= c <= 'f'
    ensures HexDigitValue(c) == d
  {
    if d < 10 then DecimalDigit(d) else ('a' as int + d - 10) as char
  }

  /** The hexadecimal digits of `n`: they spell `n` and have no leading zero. */
  function HexDigits(n: nat): (r: string)
    ensures |r| >= 1
    ensures forall i :: 0 <= i < |r| ==> '0' <= r[i] <= '9' || 'a' <= r[i] <= 'f'
    ensures HexValue(r) == n
    ensures n == 0 || r[0] != '0'
    ensures |r| == 1 || r[0] != '0'
  {
    if n < 16 then
      var r := [HexDigit(n)];
      assert r[..0] == [];
      r
    else
      var init := HexDigits(n / 16);
      var r := init + [HexDigit(n % 16)];
      assert r[..|r| - 1] == init;
      r
  }

  /** Python's `hex(n)` for a non-negative integer: "0x", then the lower-case
      hexadecimal digits of `n` without leading zeros. */
  function Hex(n: nat): (r: string)
    ensures |r| >= 3 && r[..2] == "0x"
    ensures forall i :: 2 <= i < |r| ==> '0' <= r[i] <= '9' || 'a' <= r[i] <= 'f'
    ensures HexValue(r[2..]) == n
    ensures n == 0 || r[2] != '0'
    ensures |r| == 3 || r[2] != '0'
  {
    var digits := HexDigits(n);
    assert ("0x" + digits)[2..] == digits;
    "0x" + digits
  }

  /** Different addresses are printed differently. */
  lemma HexInjective(m: nat, n: nat)
    requires Hex(m) == Hex(n)
    ensures m == n
  {
    assert Hex(m)[2..] == Hex(n)[2..];
  }
}

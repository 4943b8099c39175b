/**
 * Decimal text of integers: `String(n)` for the integer numbers the adapter
 * renders into query strings and range headers, and `parseInt(s, 10)` as the
 * room-creation action reads its room type.
 */
module Decimal {
  import opened Outcomes

  predicate IsDigit(c: char) {
    '0' <= c <= '9'
  }

  predicate AllDigits(s: string) {
    forall i :: 0 <= i < |s| ==> IsDigit(s[i])
  }

  function Digit(d: nat): (c: char)
    requires d < 10
    ensures IsDigit(c) && c as int - '0' as int == d
  {
    (d + '0' as int) as char
  }

  function DigitValue(c: char): nat
    requires IsDigit(c)
  {
    c as int - '0' as int
  }

  /** The shortest decimal text of a natural number. */
  function ShowNat(n: nat): (s: string)
    ensures |s| > 0 && AllDigits(s)
    decreases n
  {
    if n < 10 then [Digit(n)] else ShowNat(n / 10) + [Digit(n % 10)]
  }

  /** `String(n)` for an integer `n`. */
  function Show(n: int): string {
    if n < 0 then "-" + ShowNat(-n) else ShowNat(n)
  }

  /** The value of a string of digits, most significant first. */
  function DigitsValue(s: string): nat
    requires AllDigits(s)
  {
    if s == [] then 0 else DigitsValue(s[..|s| - 1]) * 10 + DigitValue(s[|s| - 1])
  }

  /** The length of the longest prefix of `s` made of digits. */
  function DigitPrefix(s: string): (k: nat)
    ensures k <= |s| && AllDigits(s[..k])
    ensures k < |s| ==> !IsDigit(s[k])
  {
    if s == [] || !IsDigit(s[0]) then 0
    else
      var k := 1 + DigitPrefix(s[1..]);
      assert s[..k] == [s[0]] + s[1..][..k - 1];
      k
  }

  /**
   * `parseInt(s, 10)`: an optional sign, then the longest run of digits;
   * `None` stands for `NaN` (no digit after the sign).
   */
  function ParseInt(s: string): (r: Option<int>)
    ensures r.Some? <==> (
      if |s| > 0 && (s[0] == '-' || s[0] == '+') then |s| > 1 && IsDigit(s[1])
      else |s| > 0 && IsDigit(s[0]))
    // text made only of digits is read as its value
    ensures s != [] && AllDigits(s) ==> r == Some(DigitsValue(s))
  {
    var negative := |s| > 0 && s[0] == '-';
    var rest := if |s| > 0 && (s[0] == '-' || s[0] == '+') then s[1..] else s;
    var k := DigitPrefix(rest);
    assert s != [] && AllDigits(s) ==> k == |s| && rest[..k] == s by {
      if s != [] && AllDigits(s) {
        DigitPrefixOfDigits(s);
      }
    }
    var magnitude: int := if k == 0 then 0 else DigitsValue(rest[..k]);
    if k == 0 then None
    else if negative then Some(-magnitude)
    else Some(magnitude)
  }

  lemma {:induction false} ShowNatValue(n: nat)
    ensures DigitsValue(ShowNat(n)) == n
  {
    if n >= 10 {
      ShowNatValue(n / 10);
      var s := ShowNat(n);
      assert s[..|s| - 1] == ShowNat(n / 10);
    }
  }

  lemma {:induction false} DigitPrefixOfDigits(s: string)
    requires AllDigits(s)
    ensures DigitPrefix(s) == |s|
  {
    if s != [] {
      DigitPrefixOfDigits(s[1..]);
    }
  }

  /** The digit run of `d + rest` ends where `d` ends when `rest` does not start with a digit. */
  lemma {:induction false} DigitPrefixStops(d: string, rest: string)
    requires AllDigits(d) && (rest == [] || !IsDigit(rest[0]))
    ensures DigitPrefix(d + rest) == |d|
  {
    if d == [] {
      assert d + rest == rest;
    } else {
      assert (d + rest)[1..] == d[1..] + rest;
      DigitPrefixStops(d[1..], rest);
    }
  }

  /**
   * Reading the decimal text of an integer back, followed by any text that does
   * not start with a digit, gives the integer.
   */
  lemma ParseShowFollowed(n: int, rest: string)
    requires rest == [] || !IsDigit(rest[0])
    ensures ParseInt(Show(n) + rest) == Some(n)
  {
    var m := if n < 0 then -n else n;
    var digits := ShowNat(m);
    DigitPrefixStops(digits, rest);
    ShowNatValue(m);
    var s := Show(n) + rest;
    if n < 0 {
      assert s[1..] == digits + rest;
    } else {
      assert s == digits + rest;
    }
    assert (digits + rest)[..|digits|] == digits;
  }

  /** Reading back the decimal text of any integer gives the integer. */
  lemma ParseShow(n: int)
    ensures ParseInt(Show(n)) == Some(n)
  {
    ParseShowFollowed(n, "");
    assert Show(n) + "" == Show(n);
  }
}

/** The string operations the decoders apply to attribute text: Python's int() on a
    decimal string, str.lower() on ASCII text, and bin(n) together with counting a
    character in a string. */
module Text {
  import opened Common

  predicate IsDigit(c: char) { '0' <= c <= '9' }

  predicate IsSign(c: char) { c == '-' || c == '+' }

  predicate AllDigits(s: string) { forall i :: 0 <= i < |s| ==> IsDigit(s[i]) }

  /** The value of a string of decimal digits, most significant digit first. */
  function DigitsValue(s: string): nat
    requires AllDigits(s)
    decreases |s|
  {
    if |s| == 0 then 0
    else DigitsValue(s[..|s| - 1]) * 10 + (s[|s| - 1] as int - '0' as int)
  }

  /** Python's int(text) on an optionally signed decimal literal; None where int() raises. */
  function ParseInt(s: string): (r: Option<int>)
    ensures r.Some? <==> (|s| > 0 && AllDigits(s)) || (|s| > 1 && IsSign(s[0]) && AllDigits(s[1..]))
    ensures |s| > 0 && AllDigits(s) ==> r == Some(DigitsValue(s))
    ensures |s| > 1 && s[0] == '+' && AllDigits(s[1..]) ==> r == Some(DigitsValue(s[1..]))
    ensures |s| > 1 && s[0] == '-' && AllDigits(s[1..]) ==> r == Some(0 - DigitsValue(s[1..]))
    ensures r.Some? && r.value < 0 ==> s[0] == '-'
  {
    if |s| > 0 && IsSign(s[0]) then
      var digits := s[1..];
      if |digits| > 0 && AllDigits(digits) then
        Some(if s[0] == '-' then 0 - DigitsValue(digits) else DigitsValue(digits))
      else None
    else if |s| > 0 && AllDigits(s) then Some(DigitsValue(s))
    else None
  }

  /** The decimal digits of `n`, without leading zeros. */
  function ShowNat(n: nat): (s: string)
    ensures |s| > 0 && AllDigits(s)
  {
    if n < 10 then ['0' + n as char]
    else ShowNat(n / 10) + ['0' + (n % 10) as char]
  }

  function ShowInt(n: int): string
  {
    if n < 0 then "-" + ShowNat(-n) else ShowNat(n)
  }

  lemma {:induction false} ShowNatValue(n: nat)
    ensures DigitsValue(ShowNat(n)) == n
  {
    if n >= 10 {
      var s := ShowNat(n);
      assert s[..|s| - 1] == ShowNat(n / 10);
      ShowNatValue(n / 10);
    }
  }

  /** Every integer written in decimal parses back to itself. */
  lemma ParseShowInt(n: int)
    ensures ParseInt(ShowInt(n)) == Some(n)
  {
    if n < 0 {
      var s := ShowInt(n);
      assert s[1..] == ShowNat(-n);
      ShowNatValue(-n);
    } else {
      ShowNatValue(n);
    }
  }

  function LowerChar(c: char): char
  {
    if 'A' <= c <= 'Z' then (c as int - 'A' as int + 'a' as int) as char else c
  }

  /** str.lower() on ASCII letters; every other character is kept. */
  function Lower(s: string): (r: string)
    ensures |r| == |s|
    ensures forall i :: 0 <= i < |s| ==> r[i] == LowerChar(s[i])
    ensures forall i :: 0 <= i < |s| ==> !('A' <= r[i] <= 'Z')
  {
    seq(|s|, i requires 0 <= i < |s| => LowerChar(s[i]))
  }

  /** The binary digits of `n`, without leading zeros ("0" for zero). */
  function Binary(n: nat): (s: string)
    ensures |s| > 0
  {
    if n < 2 then [if n == 1 then '1' else '0']
    else Binary(n / 2) + [if n % 2 == 1 then '1' else '0']
  }

  /** Python's bin(n): "0b" and the binary digits, after a "-" when n is negative. */
  function Bin(n: int): string
  {
    if n < 0 then "-0b" + Binary(-n) else "0b" + Binary(n)
  }

  /** str.count(c) for a one-character string c. */
  function Count(s: string, c: char): nat
    decreases |s|
  {
    if |s| == 0 then 0 else (if s[0] == c then 1 else 0) + Count(s[1..], c)
  }

  /** The number of set bits of `n`. */
  function PopCount(n: nat): nat
  {
    if n == 0 then 0 else n % 2 + PopCount(n / 2)
  }

  lemma {:induction false} CountConcat(a: string, b: string, c: char)
    ensures Count(a + b, c) == Count(a, c) + Count(b, c)
    decreases |a|
  {
    if |a| > 0 {
      assert (a + b)[0] == a[0] && (a + b)[1..] == a[1..] + b;
      CountConcat(a[1..], b, c);
    } else {
      assert a + b == b;
    }
  }

  /** Counting '1' in the binary digits of n is counting the set bits of n. */
  lemma {:induction false} BinaryOnes(n: nat)
    ensures Count(Binary(n), '1') == PopCount(n)
  {
    if n >= 2 {
      BinaryOnes(n / 2);
      CountConcat(Binary(n / 2), [if n % 2 == 1 then '1' else '0'], '1');
    }
  }

  /** bin(n)[2:].count("1") is the popcount of |n|: for a negative n the slice keeps a
      leading 'b', which is not counted. */
  lemma BinSliceOnes(n: int)
    ensures Count(Bin(n)[2..], '1') == PopCount(if n < 0 then -n else n)
  {
    if n < 0 {
      assert Bin(n)[2..] == "b" + Binary(-n);
      CountConcat("b", Binary(-n), '1');
      BinaryOnes(-n);
    } else {
      assert Bin(n)[2..] == Binary(n);
      BinaryOnes(n);
    }
  }
}

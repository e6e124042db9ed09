/** Decimal text of 32-bit integers, as QString::number and QString::toInt print and read it. */
module Decimal {

  const INT_MIN: int := -0x8000_0000
  const INT_MAX: int := 0x7fff_ffff

  type int32 = n: int | INT_MIN <= n <= INT_MAX

  function Digit(d: nat): char
    requires d < 10
  {
    (48 + d) as char
  }

  predicate IsDigit(c: char) {
    48 <= c as int <= 57
  }

  function DigitValue(c: char): nat
    requires IsDigit(c)
  {
    var code := c as int;
    code - 48
  }

  function Digits(n: nat): string
  {
    if n < 10 then [Digit(n)] else Digits(n / 10) + [Digit(n % 10)]
  }

  function Number(n: int): string
  {
    if n < 0 then "-" + Digits(-n) else Digits(n)
  }

  predicate IsSpace(c: char) {
    c == ' ' || '\t' <= c <= '\r'
  }

  /** Without leading and trailing white space. */
  function Trimmed(s: string): string
  {
    if s == [] then s
    else if IsSpace(s[0]) then Trimmed(s[1..])
    else if IsSpace(s[|s| - 1]) then Trimmed(s[..|s| - 1])
    else s
  }

  predicate AllDigits(s: string) {
    s != [] && forall i :: 0 <= i < |s| ==> IsDigit(s[i])
  }

  function Value(s: string): nat
    requires forall i :: 0 <= i < |s| ==> IsDigit(s[i])
  {
    if s == [] then 0 else 10 * Value(s[..|s| - 1]) + DigitValue(s[|s| - 1])
  }

  /** The number a text stands for; 0 if it is not a number or does not fit. */
  function ToInt(s: string): int32
  {
    var t := Trimmed(s);
    var signed := t != [] && (t[0] == '-' || t[0] == '+');
    var digits := if signed then t[1..] else t;
    if !AllDigits(digits) then 0 else
      var n: int := if t[0] == '-' then 0 - Value(digits) else Value(digits);
      if INT_MIN <= n <= INT_MAX then n else 0
  }

  lemma {:induction false} DigitsValue(n: nat)
    ensures AllDigits(Digits(n)) && Value(Digits(n)) == n
  {
    if n >= 10 {
      DigitsValue(n / 10);
      var s := Digits(n);
      assert s[..|s| - 1] == Digits(n / 10) && s[|s| - 1] == Digit(n % 10);
    } else {
      assert Digits(n)[..0] == [];
    }
  }

  /** The text of a number, digit by digit. */
  lemma NumberDigits(n: int)
    ensures n < 0 ==> Number(n) == "-" + Number(-n)
    ensures 0 <= n < 10 ==> Number(n) == ["0123456789"[n]]
    ensures n >= 10 ==> Number(n) == Number(n / 10) + Number(n % 10)
  {
  }

  lemma {:induction false} TrimmedAround(left: string, s: string, right: string)
    requires s != [] && !IsSpace(s[0]) && !IsSpace(s[|s| - 1])
    requires (forall c <- left :: IsSpace(c)) && forall c <- right :: IsSpace(c)
    ensures Trimmed(left + s + right) == s
    decreases |left| + |right|
  {
    var t := left + s + right;
    if left != [] {
      TrimmedAround(left[1..], s, right);
      assert t[1..] == left[1..] + s + right;
    } else if right != [] {
      TrimmedAround([], s, right[..|right| - 1]);
      assert t[..|t| - 1] == [] + s + right[..|right| - 1];
    } else {
      assert t == s;
    }
  }

  /** Reading back a printed integer gives the integer, and 0 if it does not fit into 32 bits. */
  lemma NumberToInt(n: int)
    ensures ToInt(Number(n)) == if -0x8000_0000 <= n <= 0x7fff_ffff then n else 0
  {
    var size := if n < 0 then -n else n;
    var digits := Digits(size);
    DigitsValue(size);
    assert IsDigit(digits[0]) && IsDigit(digits[|digits| - 1]);
    if n < 0 {
      assert Number(n)[1..] == digits && Number(n)[|digits|] == digits[|digits| - 1];
    }
  }

  /** White space around a number is skipped, and so is a plus sign. */
  lemma NumberToIntAround(n: int32, left: string, right: string)
    requires forall c <- left + right :: c in [' ', '\t', '\n', '\r', 11 as char, 12 as char]
    ensures ToInt(left + Number(n) + right) == n
    ensures n >= 0 ==> ToInt(left + ("+" + Number(n)) + right) == n
  {
    NumberToInt(n);
    DigitsValue(if n < 0 then 0 - n else n);
    assert forall c <- left :: c in left + right;
    assert forall c <- right :: c in left + right;
    var text := Number(n);
    TrimmedAround(left, text, right);
    TrimmedAround([], text, []);
    assert [] + text + [] == text;
    if n >= 0 {
      TrimmedAround(left, "+" + text, right);
      assert ("+" + text)[1..] == text;
    }
  }

  lemma {:induction false} TrimmedKeeps(s: string, i: nat)
    requires i < |s| && !IsSpace(s[i])
    ensures s[i] in Trimmed(s)
    decreases |s|
  {
    if IsSpace(s[0]) {
      TrimmedKeeps(s[1..], i - 1);
    } else if IsSpace(s[|s| - 1]) {
      TrimmedKeeps(s[..|s| - 1], i);
    }
  }

  /** A text with any character that no number is written with reads as 0. */
  lemma OtherTextIsZero(s: string, i: nat)
    requires i < |s| && s[i] !in "0123456789+-" && s[i] !in [' ', '\t', '\n', '\r', 11 as char, 12 as char]
    ensures ToInt(s) == 0
  {
    assert forall c :: IsDigit(c) ==> c in ['0', '1', '2', '3', '4', '5', '6', '7', '8', '9'];
    assert "0123456789+-" == ['0', '1', '2', '3', '4', '5', '6', '7', '8', '9', '+', '-'];
    TrimmedKeeps(s, i);
    var t := Trimmed(s);
    var k :| 0 <= k < |t| && t[k] == s[i];
    var signed := t[0] == '-' || t[0] == '+';
    var digits := if signed then t[1..] else t;
    assert digits[if signed then k - 1 else k] == s[i];
  }

  /** Different numbers have different texts. */
  lemma NumberInjective(a: nat, b: nat)
    requires Number(a) == Number(b)
    ensures a == b
  {
    DigitsValue(a);
    DigitsValue(b);
  }
}

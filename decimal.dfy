/**
 * Decimal printing: `print_num` of the hello protection domain.
 * The characters it hands to the debug console are returned as a string.
 */
module Decimal {
  import opened CTypes

  predicate IsDigit(c: char) {
    '0' <= c <= '9'
  }

  predicate AllDigits(s: string) {
    forall i :: 0 <= i < |s| ==> IsDigit(s[i])
  }

  /** The character `'0' + d`. */
  function DigitChar(d: nat): (c: char)
    requires d < 10
    ensures IsDigit(c)
  {
    ('0' as int + d) as char
  }

  /** The value of a digit character. */
  function DigitValue(c: char): (d: nat)
    requires IsDigit(c)
    ensures d < 10 && DigitChar(d) == c
  {
    c as int - '0' as int
  }

  function Pow10(k: nat): (p: nat)
    ensures p >= 1
  {
    if k == 0 then 1 else 10 * Pow10(k - 1)
  }

  /**
   * The base-10 digits of n, most significant first, without leading zeros.
   * Zero has no digits; print_num special-cases it.
   */
  function Digits(n: nat): (s: string)
    ensures AllDigits(s)
    ensures s == [] <==> n == 0
    ensures s != [] ==> s[0] != '0'
  {
    if n == 0 then [] else Digits(n / 10) + [DigitChar(n % 10)]
  }

  /** The number a string of decimal digits denotes (the reference reading of Digits). */
  function Value(s: string): nat
    requires AllDigits(s)
  {
    if s == [] then 0 else Value(s[..|s| - 1]) * 10 + DigitValue(s[|s| - 1])
  }

  /** Reading the digits of n back gives n. */
  lemma {:induction false} ValueOfDigits(n: nat)
    ensures Value(Digits(n)) == n
  {
    if n > 0 {
      var s := Digits(n);
      assert s[..|s| - 1] == Digits(n / 10);
      ValueOfDigits(n / 10);
    }
  }

  /** Every digit string without a leading zero is the Digits of its value. */
  lemma {:induction false} DigitsOfValue(s: string)
    requires AllDigits(s)
    requires s != [] ==> s[0] != '0'
    ensures Digits(Value(s)) == s
  {
    if s != [] {
      var p := s[..|s| - 1];
      assert AllDigits(p) && (p != [] ==> p[0] != '0') by {
        if p != [] {
          assert p[0] == s[0];
        }
      }
      DigitsOfValue(p);
      DigitsOfValueStep(s);
    }
  }

  /** The induction step of DigitsOfValue: one more digit on the right. */
  lemma DigitsOfValueStep(s: string)
    requires s != [] && AllDigits(s) && s[0] != '0'
    requires Digits(Value(s[..|s| - 1])) == s[..|s| - 1]
    ensures Digits(Value(s)) == s
  {
    var p, last := s[..|s| - 1], s[|s| - 1];
    var v, d := Value(p), DigitValue(last);
    assert v * 10 + d != 0 by {
      if p == [] {
        assert last == s[0];
      }
    }
    DigitStep(v, d);
    SnocSplit(s);
  }

  /** A non-empty sequence is its prefix followed by its last element. */
  lemma SnocSplit<T>(s: seq<T>)
    requires s != []
    ensures s == s[..|s| - 1] + [s[|s| - 1]]
  {
  }

  /** Appending digit d to v and taking the last digit off again are inverse. */
  lemma DigitStep(v: nat, d: nat)
    requires d < 10
    ensures (v * 10 + d) / 10 == v && (v * 10 + d) % 10 == d
  {
  }

  /** A number below 10^k has at most k digits. */
  lemma {:induction false} DigitsLength(n: nat, k: nat)
    requires n < Pow10(k)
    ensures |Digits(n)| <= k
  {
    if n > 0 {
      assert k > 0;
      assert n / 10 < Pow10(k - 1);
      DigitsLength(n / 10, k - 1);
    }
  }

  /** A uint64 has at most 20 decimal digits, so they fit print_num's 21-byte buffer. */
  lemma U64Digits(n: U64)
    ensures |Digits(n)| <= 20
  {
    assert Pow10(5) == 100_000;
    assert Pow10(10) == 10 * 10 * 10 * 10 * 10 * Pow10(5);
    assert Pow10(15) == 10 * 10 * 10 * 10 * 10 * Pow10(10);
    assert Pow10(20) == 10 * 10 * 10 * 10 * 10 * Pow10(15);
    DigitsLength(n, 20);
  }

  /** What print_num emits: "0\n" for zero, otherwise the digits and no newline. */
  function NumText(num: nat): string {
    if num == 0 then "0\n" else Digits(num)
  }

  /** print_num's output is "0\n" for zero and otherwise a digit string, without a leading zero, that reads back as num. */
  lemma NumTextShape(num: nat)
    ensures num == 0 ==> NumText(num) == "0\n"
    ensures num > 0 ==> AllDigits(NumText(num)) && NumText(num)[0] != '0' && Value(NumText(num)) == num
    ensures num > 0 ==> '\n' !in NumText(num)
  {
    if num > 0 {
      ValueOfDigits(num);
      assert !IsDigit('\n');
    }
  }

  /** One step of print_num's first loop: the digit taken off n goes in front of the ones already taken. */
  lemma FillStep(num: nat, n: nat, taken: string, d: char)
    requires n > 0 && d == DigitChar(n % 10)
    requires Digits(num) == Digits(n) + taken
    ensures Digits(num) == Digits(n / 10) + ([d] + taken)
  {
  }

  /**
   * print_num's first loop: the digits of num, least significant first,
   * into a fresh 21-character buffer; i is how many were written.
   */
  method FillDigits(num: U64) returns (buffer: array<char>, i: nat)
    requires num > 0
    ensures fresh(buffer) && buffer.Length == 21
    ensures i == |Digits(num)| && i <= 20
    ensures forall k :: 0 <= k < i ==> buffer[k] == Digits(num)[i - 1 - k]
  {
    U64Digits(num);
    buffer := new char[21];
    i := 0;
    var n: nat := num;
    ghost var taken: string := [];
    while n > 0
      invariant i == |taken| && i + |Digits(n)| <= 20
      invariant forall k :: 0 <= k < i ==> buffer[k] == taken[i - 1 - k]
      invariant Digits(num) == Digits(n) + taken
    {
      var d := DigitChar(n % 10);
      FillStep(num, n, taken, d);
      buffer[i] := d;
      taken := [d] + taken;
      i := i + 1;
      n := n / 10;
    }
  }

  /**
   * print_num: fill a 21-character buffer least significant digit first,
   * then emit it from the last filled slot down. Returns the emitted characters.
   */
  method PrintNum(num: U64) returns (out: string)
    ensures out == NumText(num)
  {
    if num == 0 {
      out := "0\n";
      return;
    }
    var buffer, i := FillDigits(num);
    ghost var len := i;
    out := [];
    while i > 0
      invariant 0 <= i <= len && |out| == len - i
      invariant forall k :: 0 <= k < |out| ==> out[k] == Digits(num)[k]
    {
      i := i - 1;
      out := out + [buffer[i]];
    }
  }
}

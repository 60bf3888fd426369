/** Decimal numbers as text, and text split at a separator. */
module Text {

  /** The white space that trimming removes: the characters with the Unicode property White_Space. */
  predicate IsSpace(c: char) {
    var u := c as int;
    || 0x09 <= u <= 0x0d || u == 0x20 || u == 0x85 || u == 0xa0 || u == 0x1680
    || 0x2000 <= u <= 0x200a || u == 0x2028 || u == 0x2029 || u == 0x202f || u == 0x205f || u == 0x3000
  }

  predicate IsDigit(c: char) {
    '0' <= c <= '9'
  }

  predicate AllDigits(s: string) {
    forall i :: 0 <= i < |s| ==> IsDigit(s[i])
  }

  function Digit(d: nat): (c: char)
    requires d < 10
    ensures IsDigit(c)
  {
    ('0' as int + d) as char
  }

  function DigitValue(c: char): nat
    requires IsDigit(c)
  {
    c as int - '0' as int
  }

  /** What %d prints for a number that is not negative. */
  function Decimal(n: nat): (s: string)
    ensures s != [] && AllDigits(s)
  {
    if n < 10 then [Digit(n)] else Decimal(n / 10) + [Digit(n % 10)]
  }

  /** The number that a string of digits denotes. */
  function Value(s: string): nat
    requires AllDigits(s)
  {
    if s == [] then 0 else Value(s[..|s| - 1]) * 10 + DigitValue(s[|s| - 1])
  }

  lemma {:induction false} ValueOfDecimal(n: nat)
    ensures Value(Decimal(n)) == n
  {
    var s := Decimal(n);
    if n >= 10 {
      ValueOfDecimal(n / 10);
      assert s[..|s| - 1] == Decimal(n / 10);
    } else {
      assert s[..0] == [];
    }
  }

  function Signed(i: int): string {
    if i < 0 then "-" + Decimal(-i) else Decimal(i)
  }

  lemma SignedHead(i: int)
    ensures Signed(i)[0] == '-' <==> i < 0
  {
    assert !IsDigit('-');
    assert i >= 0 ==> IsDigit(Decimal(i)[0]);
  }

  lemma SignedInjective(i: int, j: int)
    requires Signed(i) == Signed(j)
    ensures i == j
  {
    SignedHead(i);
    SignedHead(j);
    ValueOfDecimal(if i < 0 then -i else i);
    ValueOfDecimal(if j < 0 then -j else j);
    if i < 0 {
      assert Decimal(-i) == Signed(i)[1..] && Decimal(-j) == Signed(j)[1..];
    }
  }

  lemma SignedWithout(i: int, c: char)
    requires !IsDigit(c) && c != '-'
    ensures c !in Signed(i)
  {
  }

  lemma SeparatorIsLast(s: string, a: string, b: string, sep: char)
    requires s == a + [sep] + b && sep !in b
    ensures |a| < |s| && s[|a|] == sep && s[..|a|] == a && s[|a| + 1..] == b
    ensures forall k :: |a| < k < |s| ==> s[k] != sep
  {
    assert forall k :: |a| < k < |s| ==> s[k] == b[k - |a| - 1] && s[k] in b;
  }

  /** Text cut at the last separator can be cut in only one way. */
  lemma LastSeparator(a: string, b: string, c: string, d: string, sep: char)
    requires a + [sep] + b == c + [sep] + d
    requires sep !in b && sep !in d
    ensures a == c && b == d
  {
    var s := a + [sep] + b;
    SeparatorIsLast(s, a, b, sep);
    SeparatorIsLast(s, c, d, sep);
    assert |a| == |c|;
  }
}

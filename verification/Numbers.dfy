/** Decimal numbers as text: how %d writes one, and how ParseInt and Atoi read one back. */
module Numbers {
  import opened Wrappers

  predicate IsDigit(c: char) {
    '0' <= c <= '9'
  }

  predicate AllDigits(s: string) {
    forall k | 0 <= k < |s| :: IsDigit(s[k])
  }

  function Digit(d: nat): char
    requires d < 10
  {
    '0' + d as char
  }

  function Digits(n: nat): (s: string)
    ensures s != [] && AllDigits(s)
  {
    if n < 10 then [Digit(n)] else Digits(n / 10) + [Digit(n % 10)]
  }

  function ReadDigits(s: string): nat
    requires AllDigits(s)
  {
    if s == [] then 0
    else
      var last := s[|s|-1];
      assert IsDigit(last);
      10 * ReadDigits(s[..|s|-1]) + (last as int - '0' as int)
  }

  /** %d. */
  function Render(n: int): (s: string)
    ensures s != []
    ensures forall c | c in s :: IsDigit(c) || c == '-'
  {
    if n < 0 then "-" + Digits(-n) else Digits(n)
  }

  const MIN_INT64 := -0x8000_0000_0000_0000
  const MAX_INT64 := 0x7fff_ffff_ffff_ffff

  predicate Int64(n: int) {
    MIN_INT64 <= n <= MAX_INT64
  }

  /** ParseInt(s, 10, 64), and Atoi: an optional sign, then digits, and the value has to fit. */
  function ParseInt(s: string): Option<int> {
    var signed := s != [] && (s[0] == '-' || s[0] == '+');
    var digits := if signed then s[1..] else s;
    if digits == [] || !AllDigits(digits) then None
    else
      var size := ReadDigits(digits);
      var n := if signed && s[0] == '-' then 0 - size else size;
      if Int64(n) then Some(n) else None
  }

  lemma {:induction false} ReadDigitsReadsDigits(n: nat)
    ensures ReadDigits(Digits(n)) == n
  {
    var s := Digits(n);
    if n < 10 {
      assert s[..0] == [];
    } else {
      ReadDigitsReadsDigits(n / 10);
      assert s[..|s|-1] == Digits(n / 10);
    }
  }

  /** A number written is read back when it fits in 64 bits, and refused when it does not. */
  lemma ParseRendered(n: int)
    ensures ParseInt(Render(n)) == if Int64(n) then Some(n) else None
  {
    ReadDigitsReadsDigits(if n < 0 then -n else n);
    if n < 0 { assert Render(n)[1..] == Digits(-n); }
    assert Render(n)[0] in Render(n);
  }

  lemma RenderInjective(a: int, b: int)
    requires Render(a) == Render(b)
    ensures a == b
  {
    ReadDigitsReadsDigits(if a < 0 then -a else a);
    ReadDigitsReadsDigits(if b < 0 then -b else b);
    if a < 0 { assert Render(a)[1..] == Digits(-a); }
    if b < 0 { assert Render(b)[1..] == Digits(-b); }
    if a >= 0 { assert IsDigit(Render(a)[0]); }
    if b >= 0 { assert IsDigit(Render(b)[0]); }
  }
}

/** Decimal integers as go-redis writes them and strconv.Atoi reads them. */
module Decimal {
  import opened Prelude

  const MIN_INT := -0x8000_0000_0000_0000
  const MAX_INT := 0x7FFF_FFFF_FFFF_FFFF

  predicate IsInt(n: int) {
    MIN_INT <= n <= MAX_INT
  }

  function Digit(d: nat): byte
    requires d < 10
  {
    ('0' as int + d) as char
  }

  predicate IsDigit(c: byte) {
    '0' <= c <= '9'
  }

  function Digits(n: nat): (s: Bytes)
    ensures |s| > 0
  {
    if n < 10 then [Digit(n)] else Digits(n / 10) + [Digit(n % 10)]
  }

  function Itoa(n: int): Bytes {
    if n < 0 then ['-'] + Digits(-n) else Digits(n)
  }

  predicate AllDigits(s: Bytes) {
    forall i :: 0 <= i < |s| ==> IsDigit(s[i])
  }

  function Value(s: Bytes): nat
    requires AllDigits(s)
  {
    if s == [] then 0
    else 10 * Value(s[..|s| - 1]) + (s[|s| - 1] as int - '0' as int)
  }

  predicate Signed(s: Bytes) {
    s != [] && (s[0] == '-' || s[0] == '+')
  }

  function Unsigned(s: Bytes): Bytes {
    if Signed(s) then s[1..] else s
  }

  /** strconv.Atoi: an optional sign, at least one digit, and a value that fits 64 bits. */
  function Atoi(s: Bytes): Option<int> {
    var ds := Unsigned(s);
    if ds == [] || !AllDigits(ds) then None
    else
      var v: int := Value(ds);
      var n := if s[0] == '-' then -v else v;
      if IsInt(n) then Some(n) else None
  }

  lemma {:induction false} DigitsValue(n: nat)
    ensures AllDigits(Digits(n)) && Value(Digits(n)) == n
  {
    if n >= 10 {
      DigitsValue(n / 10);
      var s := Digits(n);
      assert s[..|s| - 1] == Digits(n / 10);
    } else {
      assert Digits(n)[..0] == [];
    }
  }

  /** Atoi reads back what was written exactly when the number fits a Go int. */
  lemma AtoiItoa(n: int)
    ensures Atoi(Itoa(n)) == Some(n) <==> IsInt(n)
    ensures Itoa(n) != []
  {
    if n < 0 {
      DigitsValue(-n);
      assert Itoa(n)[1..] == Digits(-n);
    } else {
      DigitsValue(n);
    }
  }

  lemma ItoaInjective(m: int, n: int)
    requires Itoa(m) == Itoa(n)
    ensures m == n
  {
    ItoaSign(m);
    ItoaSign(n);
    DigitsValue(if m < 0 then -m else m);
    DigitsValue(if n < 0 then -n else n);
  }

  lemma ItoaSign(n: int)
    ensures n < 0 <==> Itoa(n)[0] == '-'
    ensures n < 0 ==> Itoa(n)[1..] == Digits(-n)
  {
    if n >= 0 {
      DigitsValue(n);
      assert IsDigit(Digits(n)[0]);
    }
  }

  function Pow10(k: nat): nat {
    if k == 0 then 1 else 10 * Pow10(k - 1)
  }

  /** The value of a digit string by place: the first digit weighs most. */
  function ByPlace(s: Bytes): nat
    requires AllDigits(s)
  {
    if s == [] then 0 else (s[0] as int - '0' as int) * Pow10(|s| - 1) + ByPlace(s[1..])
  }

  lemma {:induction false} PlaceSnoc(s: Bytes, d: byte)
    requires AllDigits(s) && IsDigit(d)
    ensures AllDigits(s + [d]) && ByPlace(s + [d]) == 10 * ByPlace(s) + (d as int - '0' as int)
  {
    if s == [] {
      assert s + [d] == [d] && [d][1..] == [];
      assert Pow10(0) == 1 && ByPlace([d]) == (d as int - '0' as int) * 1 + ByPlace([]);
    } else {
      PlaceSnoc(s[1..], d);
      var t := s + [d];
      assert t[1..] == s[1..] + [d];
      var a: int, p := s[0] as int - '0' as int, Pow10(|s| - 1);
      assert Pow10(|t| - 1) == 10 * p;
      assert a * (10 * p) == 10 * (a * p);
    }
  }

  /** Numbers are written in decimal, the most significant digit first, without leading zeros. */
  lemma {:induction false} DigitsByPlace(n: nat)
    ensures AllDigits(Digits(n)) && ByPlace(Digits(n)) == n
    ensures Digits(n)[0] == '0' ==> n == 0 && |Digits(n)| == 1
  {
    if n >= 10 {
      DigitsByPlace(n / 10);
      PlaceSnoc(Digits(n / 10), Digit(n % 10));
      assert Digits(n)[0] == Digits(n / 10)[0];
    } else {
      assert Digits(n)[1..] == [] && Pow10(0) == 1;
    }
  }

  lemma {:induction false} ValueByPlace(s: Bytes)
    requires AllDigits(s)
    ensures Value(s) == ByPlace(s)
  {
    if s != [] {
      var most, d := s[..|s| - 1], s[|s| - 1];
      assert s == most + [d];
      ValueByPlace(most);
      PlaceSnoc(most, d);
    }
  }

  /** Atoi reads an optional sign and at least one digit, and nothing else, as a 64-bit number. */
  lemma AtoiDecides(s: Bytes)
    ensures AllDigits(s) && s != [] ==> Atoi(s) == if IsInt(ByPlace(s)) then Some(ByPlace(s)) else None
    ensures s != [] && s[0] == '+' && |s| > 1 && AllDigits(s[1..]) ==>
              Atoi(s) == if IsInt(ByPlace(s[1..])) then Some(ByPlace(s[1..])) else None
    ensures s != [] && s[0] == '-' && |s| > 1 && AllDigits(s[1..]) ==>
              Atoi(s) == if IsInt(0 - ByPlace(s[1..])) then Some(0 - ByPlace(s[1..])) else None
    ensures Atoi(s).Some? ==>
              s != [] && (AllDigits(s) || ((s[0] == '+' || s[0] == '-') && |s| > 1 && AllDigits(s[1..])))
  {
    if AllDigits(Unsigned(s)) {
      ValueByPlace(Unsigned(s));
    }
    if AllDigits(s) && s != [] {
      assert IsDigit(s[0]);
    }
  }
}

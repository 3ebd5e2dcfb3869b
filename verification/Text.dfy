/** Decimal printing (`%d` and `%02d`) and its inverse. */
module Text {
  import opened Types

  function Digit(d: nat): char
    requires d < 10
  {
    ('0' as int + d) as char
  }

  function DecimalNat(n: nat): string {
    if n < 10 then [Digit(n)] else DecimalNat(n / 10) + [Digit(n % 10)]
  }

  /** `%d` */
  function Decimal(n: int): string {
    if n < 0 then "-" + DecimalNat(-n) else DecimalNat(n)
  }

  /** `%02d`: the sign counts towards the width. */
  function DecimalTwo(n: int): string {
    if 0 <= n < 10 then "0" + DecimalNat(n) else Decimal(n)
  }

  predicate IsDigit(c: char) {
    '0' <= c <= '9'
  }

  function ParseNat(s: string): Option<nat> {
    if s == [] || !IsDigit(s[|s| - 1]) then None
    else
      var last := s[|s| - 1] as int - '0' as int;
      if |s| == 1 then Some(last)
      else match ParseNat(s[..|s| - 1])
        case None => None
        case Some(high) => Some(10 * high + last)
  }

  function ParseInt(s: string): Option<int> {
    if s != [] && s[0] == '-' then
      match ParseNat(s[1..])
      case None => None
      case Some(n) => Some(-(n as int))
    else
      match ParseNat(s)
      case None => None
      case Some(n) => Some(n)
  }

  lemma {:induction false} ParseDecimalNat(n: nat)
    ensures ParseNat(DecimalNat(n)) == Some(n)
    ensures IsDigit(DecimalNat(n)[0])
  {
    if n >= 10 {
      ParseDecimalNat(n / 10);
      var s := DecimalNat(n);
      assert s[..|s| - 1] == DecimalNat(n / 10);
    }
  }

  /** The digits are digits, and the first is not zero unless it is the only one. */
  lemma {:induction false} DecimalIsPlain(n: nat)
    ensures forall c <- DecimalNat(n) :: IsDigit(c)
    ensures DecimalNat(n) != [] && (DecimalNat(n)[0] == '0' <==> n == 0)
  {
    if n >= 10 {
      DecimalIsPlain(n / 10);
    }
  }

  /** Printing with `%d` is inverted for every integer. */
  lemma ParseDecimal(n: int)
    ensures ParseInt(Decimal(n)) == Some(n)
  {
    hide DecimalNat, ParseNat;
    if n < 0 {
      ParseDecimalNat(-n);
      assert Decimal(n)[0] == '-' && Decimal(n)[1..] == DecimalNat(-n);
    } else {
      ParseDecimalNat(n);
    }
  }

  lemma ParseDecimalTwo(n: int)
    ensures ParseInt(DecimalTwo(n)) == Some(n)
  {
    ParseDecimal(n);
    if 0 <= n < 10 {
      var s := DecimalTwo(n);
      assert s == ['0', Digit(n)];
      assert s[..1] == ['0'];
      assert ParseNat(['0']) == Some(0);
    }
  }

  // ---------- the value of a decimal fraction ----------

  function PowerOfTen(k: nat): (r: nat)
    ensures r > 0
  {
    if k == 0 then 1 else 10 * PowerOfTen(k - 1)
  }

  /** What the literal "0.<digits>" denotes. */
  function FractionValue(digits: string): Option<real> {
    match ParseNat(digits)
    case None => None
    case Some(n) => Some(n as real / PowerOfTen(|digits|) as real)
  }

  lemma DigitCount(n: nat)
    requires n >= 100
    ensures |DecimalNat(n)| >= 3 && PowerOfTen(|DecimalNat(n)|) >= 1000
  {
    assert |DecimalNat(n)| == |DecimalNat(n / 10)| + 1 == |DecimalNat(n / 10 / 10)| + 2;
    PowerGrows(|DecimalNat(n)|);
  }

  lemma {:induction false} PowerGrows(k: nat)
    requires k >= 3
    ensures PowerOfTen(k) >= 1000
  {
    if k > 3 {
      PowerGrows(k - 1);
    } else {
      assert PowerOfTen(3) == 10 * PowerOfTen(2) == 100 * PowerOfTen(1);
    }
  }

  /** "0.%02d" denotes n/100 exactly for the one- and two-digit numbers. */
  lemma HundredthsExact(n: int)
    ensures FractionValue(DecimalTwo(n)) == Some(n as real / 100.0) <==> 0 <= n <= 99
  {
    var s := DecimalTwo(n);
    if n < 0 {
      NegativeIsNoFraction(n);
    } else if n <= 99 {
      TwoDigits(n);
    } else {
      ParseDecimalNat(n);
      DigitCount(n);
      FractionTooSmall(n, PowerOfTen(|s|));
    }
  }

  lemma TwoDigits(n: nat)
    requires n <= 99
    ensures FractionValue(DecimalTwo(n)) == Some(n as real / 100.0)
  {
    var s := DecimalTwo(n);
    if n >= 10 {
      assert DecimalNat(n) == DecimalNat(n / 10) + [Digit(n % 10)];
      ParseDecimalNat(n);
    } else {
      assert s[..1] == ['0'];
      assert ParseNat(['0']) == Some(0);
      ParseDecimalNat(n);
    }
    assert |s| == 2;
    assert PowerOfTen(2) == 10 * PowerOfTen(1) == 100;
  }

  lemma NegativeIsNoFraction(n: int)
    requires n < 0
    ensures FractionValue(DecimalTwo(n)) == None
  {
    MinusIsNoNat(DecimalNat(-n));
  }

  lemma {:induction false} MinusIsNoNat(s: string)
    ensures ParseNat("-" + s) == None
    decreases |s|
  {
    if s != [] {
      MinusIsNoNat(s[..|s| - 1]);
      assert ("-" + s)[..|s|] == "-" + s[..|s| - 1];
    }
  }

  lemma FractionTooSmall(n: nat, scale: nat)
    requires n > 0 && scale >= 1000
    ensures n as real / scale as real != n as real / 100.0
  {
    var q := n as real / scale as real;
    assert q * scale as real == n as real;
    assert q > 0.0;
    assert q * scale as real >= q * 1000.0;
  }
}

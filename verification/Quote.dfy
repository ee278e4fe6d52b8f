/** Pricing an order in tokens: the quoted amount, the rate it rests on, and how that rate is derived
    from two providers and written down as a decimal. Rates are fractions of positive integers. */
module Quote {
  import opened Common

  /** A positive rational, in any representation. */
  datatype Rate = Rate(num: nat, den: nat)
  {
    predicate Valid() { num > 0 && den > 0 }
  }

  const MONEY_LIMIT: int := 100_000_000_000
  const SCALE: int := 100_000_000

  predicate AtMost(a: Rate, b: Rate) { a.num * b.den <= b.num * a.den }

  function Pow10(n: nat): (r: nat)
    ensures r > 0
  {
    if n == 0 then 1 else 10 * Pow10(n - 1)
  }

  function CeilDiv(a: nat, b: nat): nat
    requires b > 0
  {
    (a + (b - 1)) / b
  }

  // ------------------------------------------------------------------ the quoted amount

  predicate ValidAsset(cents: int, rate: Rate, decimals: int, payment: int)
  {
    0 < cents <= MONEY_LIMIT && rate.Valid() && 0 <= decimals <= 18 && 0 <= payment <= decimals
  }

  /** cryptoQuote, in atoms of the token. */
  function QuoteAtoms(cents: int, rate: Rate, decimals: int, payment: int): Option<nat>
  {
    if !ValidAsset(cents, rate, decimals, payment) then None
    else
      var units := CeilDiv(cents * Pow10(payment) * rate.den, rate.num * 100);
      var atoms := units * Pow10(decimals - payment);
      if atoms <= 0 || atoms >= Pow2(256) then None else Some(atoms)
  }

  function Pow2(n: nat): (r: nat)
    ensures r > 0
  {
    if n == 0 then 1 else 2 * Pow2(n - 1)
  }

  /** `units` payment units are worth at least the price at this rate. */
  predicate Worth(units: nat, cents: nat, rate: Rate, payment: nat)
  {
    units * rate.num * 100 >= cents * Pow10(payment) * rate.den
  }

  lemma CeilLeast(a: nat, b: nat)
    requires b > 0
    ensures CeilDiv(a, b) * b >= a
    ensures forall k: nat :: k * b >= a ==> CeilDiv(a, b) <= k
  {
    var q := CeilDiv(a, b);
    assert a + (b - 1) == b * q + (a + (b - 1)) % b;
    assert q * b >= a;
    forall k: nat | k * b >= a ensures q <= k {
      assert (k + 1) * b == k * b + b;
      MulLess(q, k + 1, b);
    }
  }

  lemma WorthByProduct(units: nat, cents: nat, rate: Rate, payment: nat)
    ensures Worth(units, cents, rate, payment) <==> units * (rate.num * 100) >= cents * Pow10(payment) * rate.den
  {
    assert units * (rate.num * 100) == units * rate.num * 100;
  }

  lemma UnitsAreLeast(cents: nat, rate: Rate, payment: nat, units: nat)
    requires rate.Valid() && units == CeilDiv(cents * Pow10(payment) * rate.den, rate.num * 100)
    ensures Worth(units, cents, rate, payment)
    ensures forall k: nat :: Worth(k, cents, rate, payment) ==> units <= k
  {
    CeilLeast(cents * Pow10(payment) * rate.den, rate.num * 100);
    WorthByProduct(units, cents, rate, payment);
    forall k: nat | Worth(k, cents, rate, payment) ensures units <= k {
      WorthByProduct(k, cents, rate, payment);
    }
  }

  /** The quote is the least number of payment units worth the price. */
  lemma QuoteIsLeast(cents: int, rate: Rate, decimals: int, payment: int) returns (units: nat)
    requires ValidAsset(cents, rate, decimals, payment)
    ensures QuoteAtoms(cents, rate, decimals, payment).Some?
            ==> QuoteAtoms(cents, rate, decimals, payment).value == units * Pow10(decimals - payment)
    ensures Worth(units, cents, rate, payment)
    ensures forall k: nat :: Worth(k, cents, rate, payment) ==> units <= k
  {
    units := CeilDiv(cents * Pow10(payment) * rate.den, rate.num * 100);
    UnitsAreLeast(cents, rate, payment, units);
  }

  /** Worth at a rate stays worth at any higher rate. */
  lemma WorthAtHigherRate(units: nat, cents: nat, low: Rate, high: Rate, payment: nat)
    requires low.Valid() && high.Valid() && AtMost(low, high) && Worth(units, cents, low, payment)
    ensures Worth(units, cents, high, payment)
  {
    var p, u := cents * Pow10(payment), units * 100;
    // u * low.num >= p * low.den and low.num * high.den <= high.num * low.den
    assert u * low.num >= p * low.den;
    MulLe(p * low.den, u * low.num, high.den);
    assert p * low.den * high.den <= u * low.num * high.den;
    assert u * low.num * high.den == u * (low.num * high.den);
    MulLe(low.num * high.den, high.num * low.den, u);
    assert (p * high.den) * low.den <= (u * high.num) * low.den;
    MulCancel(p * high.den, u * high.num, low.den);
    assert u * high.num == units * high.num * 100;
  }

  // ------------------------------------------------------------------ two providers

  /** A rate rounded down to eight decimals, in hundred-millionths. */
  function RoundedDown(r: Rate): nat
    requires r.Valid()
  {
    r.num * SCALE / r.den
  }

  /** Combining the rates of two providers: the lower one rounded down, or nothing if they disagree. */
  function Combine(x: Rate, y: Rate): Option<nat>
    requires x.Valid() && y.Valid()
  {
    var (low, high) := if AtMost(x, y) then (x, y) else (y, x);
    if high.num * low.den * 100 > low.num * high.den * 102 then None else Some(RoundedDown(low))
  }

  lemma RoundedIsBelow(r: Rate)
    requires r.Valid()
    ensures AtMost(Rate(RoundedDown(r), SCALE), r)
  {
    assert RoundedDown(r) * r.den <= r.num * SCALE;
  }

  lemma AtMostTrans(a: Rate, b: Rate, c: Rate)
    requires a.den > 0 && b.Valid() && c.den > 0 && AtMost(a, b) && AtMost(b, c)
    ensures AtMost(a, c)
  {
    MulLe(a.num * b.den, b.num * a.den, c.den);
    MulLe(b.num * c.den, c.num * b.den, a.den);
    assert (a.num * c.den) * b.den == a.num * b.den * c.den;
    assert (c.num * a.den) * b.den == c.num * b.den * a.den;
    assert b.num * a.den * c.den == b.num * c.den * a.den;
    MulCancel(a.num * c.den, c.num * a.den, b.den);
  }

  /** `n` hundred-millionths are not above the rate. */
  predicate Below(n: nat, r: Rate) { n * r.den <= r.num * SCALE }

  /** Neither rate is more than two per cent above the other. */
  predicate Agree(x: Rate, y: Rate)
  {
    100 * (x.num * y.den) <= 102 * (y.num * x.den) && 100 * (y.num * x.den) <= 102 * (x.num * y.den)
  }

  lemma RoundedIsLargest(r: Rate, n: nat)
    requires r.Valid()
    ensures Below(n, r) <==> n <= RoundedDown(r)
  {
    var q := RoundedDown(r);
    assert q * r.den <= r.num * SCALE < q * r.den + r.den;
    if n <= q {
      MulLe(n, q, r.den);
    } else {
      MulLe(q + 1, n, r.den);
      assert (q + 1) * r.den == q * r.den + r.den;
    }
  }

  lemma BelowLower(n: nat, low: Rate, high: Rate)
    requires low.Valid() && high.Valid() && AtMost(low, high) && Below(n, low)
    ensures Below(n, high)
  {
    AtMostTrans(Rate(n, SCALE), low, high);
  }

  lemma LowIsBoth(n: nat, low: Rate, high: Rate)
    requires low.Valid() && high.Valid() && AtMost(low, high)
    ensures n <= RoundedDown(low) <==> Below(n, low) && Below(n, high)
  {
    RoundedIsLargest(low, n);
    if Below(n, low) {
      BelowLower(n, low, high);
    }
  }

  lemma DisagreeExactly(low: Rate, high: Rate)
    requires low.Valid() && high.Valid() && AtMost(low, high)
    ensures high.num * low.den * 100 > low.num * high.den * 102 <==> !Agree(low, high)
  {
    var a, b := high.num * low.den, low.num * high.den;
    assert a >= b;
  }

  /** Two rates combine if and only if they are within two per cent of each other, and then to the largest
      number of hundred-millionths that is above neither. */
  lemma CombinesExactlyWhen(x: Rate, y: Rate)
    requires x.Valid() && y.Valid()
    ensures Combine(x, y).Some? <==> Agree(x, y)
    ensures Combine(x, y).Some? ==> forall n: nat :: n <= Combine(x, y).value <==> Below(n, x) && Below(n, y)
  {
    var (low, high) := if AtMost(x, y) then (x, y) else (y, x);
    DisagreeExactly(low, high);
    forall n: nat ensures n <= RoundedDown(low) <==> Below(n, x) && Below(n, y) {
      LowIsBoth(n, low, high);
    }
  }

  /** An amount quoted at the combined rate is worth the price at both providers' rates. */
  lemma QuoteCoversBothRates(cents: int, x: Rate, y: Rate, decimals: int, payment: int, units: nat)
    requires x.Valid() && y.Valid() && Combine(x, y).Some? && Combine(x, y).value > 0
    requires 0 <= payment && cents >= 0
    requires Worth(units, cents, Rate(Combine(x, y).value, SCALE), payment)
    ensures Worth(units, cents, x, payment) && Worth(units, cents, y, payment)
  {
    var (low, high) := if AtMost(x, y) then (x, y) else (y, x);
    var stored := Rate(RoundedDown(low), SCALE);
    RoundedIsBelow(low);
    AtMostTrans(stored, low, high);
    WorthAtHigherRate(units, cents, stored, low, payment);
    WorthAtHigherRate(units, cents, stored, high, payment);
  }

  // ------------------------------------------------------------------ decimals

  predicate IsDigit(c: char) { '0' <= c <= '9' }
  function DigitOf(c: char): nat { if IsDigit(c) then c as int - '0' as int else 0 }
  function CharOf(d: nat): char
    requires d < 10
  {
    (d + '0' as int) as char
  }

  predicate Digits(s: string) { forall i :: 0 <= i < |s| ==> IsDigit(s[i]) }

  /** The number a string of digits stands for. */
  function Value(s: string): nat
  {
    if s == [] then 0 else Value(s[..|s| - 1]) * 10 + DigitOf(s[|s| - 1])
  }

  /** Decimal notation without leading zeros. */
  function Decimal(n: nat): string
  {
    if n < 10 then [CharOf(n)] else Decimal(n / 10) + [CharOf(n % 10)]
  }

  function Zeros(n: nat): (r: string)
    ensures |r| == n
  {
    if n == 0 then [] else Zeros(n - 1) + ['0']
  }

  function TrimRight(s: string, c: char): string
  {
    if s != [] && s[|s| - 1] == c then TrimRight(s[..|s| - 1], c) else s
  }

  function PadTo(s: string, n: nat): (r: string)
    ensures |r| >= n
  {
    if |s| < n then Zeros(n - |s|) + s else s
  }

  /** cryptoRateDecimal for a number of hundred-millionths. */
  function Printed(n: nat): string
  {
    Trimmed(PadTo(Decimal(n), 9))
  }

  /** The point before the last eight digits, without trailing zeros or a trailing point. */
  function Trimmed(digits: string): string
    requires |digits| >= 9
  {
    TrimRight(TrimRight(digits[..|digits| - 8] + "." + digits[|digits| - 8..], '0'), '.')
  }

  /** Where the point is, or the length. */
  function PointAt(s: string): (i: nat)
    ensures i <= |s|
  {
    if s == [] || s[0] == '.' then 0 else 1 + PointAt(s[1..])
  }

  /** The value of a decimal as a fraction: all digits over a power of ten. */
  function Parsed(s: string): Rate
  {
    var i := PointAt(s);
    if i == |s| then Rate(Value(s), 1)
    else Rate(Value(s[..i] + s[i + 1..]), Pow10(|s| - i - 1))
  }

  lemma {:induction false} DecimalIsDigits(n: nat)
    ensures Digits(Decimal(n)) && |Decimal(n)| > 0 && Value(Decimal(n)) == n
    decreases n
  {
    if n >= 10 {
      DecimalIsDigits(n / 10);
      var s := Decimal(n / 10);
      assert (s + [CharOf(n % 10)])[..|s|] == s;
    } else {
      assert [CharOf(n)][..0] == [];
      assert Value([]) == 0;
    }
  }

  lemma {:induction false} ValueJoin(a: string, b: string)
    ensures Value(a + b) == Value(a) * Pow10(|b|) + Value(b)
    decreases |b|
  {
    if b == [] {
      assert a + b == a;
    } else {
      var init := b[..|b| - 1];
      ValueJoin(a, init);
      assert (a + b)[..|a + b| - 1] == a + init;
      assert Value(a) * Pow10(|init|) * 10 == Value(a) * Pow10(|b|);
    }
  }

  lemma {:induction false} ZerosValue(n: nat)
    ensures Digits(Zeros(n)) && Value(Zeros(n)) == 0 && |Zeros(n)| == n
    decreases n
  {
    if n > 0 {
      ZerosValue(n - 1);
      assert Zeros(n)[..n - 1] == Zeros(n - 1);
    }
  }

  lemma PadKeepsValue(s: string, n: nat)
    requires Digits(s)
    ensures Digits(PadTo(s, n)) && Value(PadTo(s, n)) == Value(s)
  {
    if |s| < n {
      ZerosValue(n - |s|);
      ValueJoin(Zeros(n - |s|), s);
      assert 0 * Pow10(|s|) == 0;
    }
  }

  lemma {:induction false} PointAfter(a: string, b: string)
    requires Digits(a)
    ensures PointAt(a + "." + b) == |a|
    decreases |a|
  {
    if a == [] {
      assert (a + "." + b)[0] == '.';
    } else {
      PointAfter(a[1..], b);
      assert (a + "." + b)[1..] == a[1..] + "." + b;
      assert (a + "." + b)[0] == a[0];
    }
  }

  lemma {:induction false} NoPoint(a: string)
    requires Digits(a)
    ensures PointAt(a) == |a|
    decreases |a|
  {
    if a != [] {
      NoPoint(a[1..]);
    }
  }

  /** Same number written with a point: `a.b` parses to the digits over a power of ten. */
  lemma ParsedPoint(a: string, b: string)
    requires Digits(a) && Digits(b)
    ensures Parsed(a + "." + b) == Rate(Value(a + b), Pow10(|b|))
  {
    var s := a + "." + b;
    PointAfter(a, b);
    assert s[..|a|] == a && s[|a| + 1..] == b;
  }

  predicate Same(x: Rate, num: int, den: int) { x.num * den == num * x.den }

  lemma ParsedPlain(a: string)
    requires Digits(a)
    ensures Parsed(a) == Rate(Value(a), 1)
  {
    NoPoint(a);
  }

  /** Trimming zeros after the point, and then the point, does not change the number. */
  lemma {:induction false} TrimKeepsNumber(a: string, b: string)
    requires Digits(a) && a != [] && Digits(b)
    ensures var t := TrimRight(TrimRight(a + "." + b, '0'), '.');
            Same(Parsed(t), Value(a + b), Pow10(|b|))
    decreases |b|
  {
    var s := a + "." + b;
    if b == [] {
      assert s[|s| - 1] == '.' && s[..|s| - 1] == a && a[|a| - 1] != '.';
      assert TrimRight(s, '0') == s && TrimRight(s, '.') == TrimRight(a, '.') == a;
      assert a + b == a;
      ParsedPlain(a);
    } else {
      var init := b[..|b| - 1];
      assert s[|s| - 1] == b[|b| - 1] && s[..|s| - 1] == a + "." + init;
      if b[|b| - 1] == '0' {
        TrimKeepsNumber(a, init);
        var t := TrimRight(TrimRight(a + "." + init, '0'), '.');
        assert (a + b)[..|a + b| - 1] == a + init;
        assert Value(a + b) == Value(a + init) * 10;
        assert Pow10(|b|) == 10 * Pow10(|init|);
        ScaleSame(Parsed(t), Value(a + init), Pow10(|init|));
      } else {
        assert TrimRight(s, '0') == s && TrimRight(s, '.') == s;
        ParsedPoint(a, b);
      }
    }
  }

  lemma ScaleSame(x: Rate, num: int, den: int)
    requires Same(x, num, den)
    ensures Same(x, num * 10, 10 * den)
  {
    assert x.num * (10 * den) == 10 * (x.num * den);
    assert num * 10 * x.den == 10 * (num * x.den);
  }

  lemma Pow10Eight()
    ensures Pow10(8) == SCALE
  {
    assert Pow10(4) == 10000;
    assert Pow10(8) == 10 * (10 * (10 * (10 * Pow10(4))));
  }

  lemma TrimmedReadsBack(d: string, a: string, b: string)
    requires Digits(a) && Digits(b) && a != [] && |b| == 8
    requires |d| == |a| + 8 && d[..|d| - 8] == a && d[|d| - 8..] == b
    ensures Same(Parsed(Trimmed(d)), Value(a + b), SCALE)
  {
    TrimKeepsNumber(a, b);
    Pow10Eight();
  }

  /** The printed rate reads back as exactly the rounded-down value. */
  lemma PrintedReadsBack(n: nat)
    ensures Same(Parsed(Printed(n)), n, SCALE)
  {
    DecimalIsDigits(n);
    PadKeepsValue(Decimal(n), 9);
    var d := PadTo(Decimal(n), 9);
    TrimmedReadsBack(d, d[..|d| - 8], d[|d| - 8..]);
    assert d[..|d| - 8] + d[|d| - 8..] == d;
  }

  /** The form of a stored rate: up to six integer digits without a leading zero, up to eight decimals. */
  predicate MatchesRate(s: string)
  {
    var i := PointAt(s);
    && 1 <= i <= 6 && Digits(s[..i]) && (i == 1 || s[0] != '0')
    && (i == |s| || (1 <= |s| - i - 1 <= 8 && Digits(s[i + 1..])))
  }

  lemma {:induction false} DecimalShape(n: nat, k: nat)
    requires n < Pow10(k) && k > 0
    ensures |Decimal(n)| <= k
    ensures n > 0 ==> Decimal(n)[0] != '0'
    decreases n
  {
    assert Pow10(1) == 10 * Pow10(0);
    if n >= 10 {
      assert k > 1;
      assert Pow10(k) == 10 * Pow10(k - 1);
      DecimalShape(n / 10, k - 1);
    }
  }

  /** What trimming leaves of `a.b`. */
  lemma {:induction false} TrimShape(a: string, b: string) returns (j: nat)
    requires Digits(a) && a != [] && Digits(b)
    ensures j <= |b|
    ensures TrimRight(TrimRight(a + "." + b, '0'), '.') == if j == 0 then a else a + "." + b[..j]
    decreases |b|
  {
    var s := a + "." + b;
    if b == [] {
      assert s[|s| - 1] == '.' && s[..|s| - 1] == a && a[|a| - 1] != '.';
      assert TrimRight(s, '0') == s && TrimRight(s, '.') == TrimRight(a, '.') == a;
      j := 0;
    } else {
      var init := b[..|b| - 1];
      assert s[|s| - 1] == b[|b| - 1] && s[..|s| - 1] == a + "." + init;
      if b[|b| - 1] == '0' {
        j := TrimShape(a, init);
        assert init[..j] == b[..j];
      } else {
        assert TrimRight(s, '0') == s && TrimRight(s, '.') == s;
        j := |b|;
        assert b[..j] == b;
      }
    }
  }

  lemma PointMatches(a: string, b: string)
    requires Digits(a) && Digits(b) && 1 <= |a| <= 6 && (|a| == 1 || a[0] != '0') && 1 <= |b| <= 8
    ensures MatchesRate(a + "." + b)
  {
    PointAfter(a, b);
    var s := a + "." + b;
    assert s[..|a|] == a && s[|a| + 1..] == b;
  }

  lemma TrimmedMatches(d: string)
    requires Digits(d) && 9 <= |d| <= 14 && (|d| == 9 || d[0] != '0')
    ensures MatchesRate(Trimmed(d))
  {
    var a, b := d[..|d| - 8], d[|d| - 8..];
    var j := TrimShape(a, b);
    if j == 0 {
      NoPoint(a);
      assert a[..|a|] == a;
    } else {
      PointMatches(a, b[..j]);
    }
  }

  /** Every rate below a million is printed in the stored form. */
  lemma PrintedMatches(n: nat)
    requires n < Pow10(14)
    ensures MatchesRate(Printed(n))
  {
    DecimalIsDigits(n);
    PadKeepsValue(Decimal(n), 9);
    DecimalShape(n, 14);
    PadShape(Decimal(n), 9);
    TrimmedMatches(PadTo(Decimal(n), 9));
  }

  lemma PadShape(s: string, n: nat)
    ensures |PadTo(s, n)| == if |s| < n then n else |s|
    ensures |s| >= n ==> PadTo(s, n) == s
  {
  }

  /** Zeros in front until the string is long enough. */
  method PadDigits(s: string, n: nat) returns (out: string)
    ensures out == PadTo(s, n)
  {
    out := s;
    ghost var zeros := 0;
    assert Zeros(0) + s == s;
    while |out| < n
      invariant out == Zeros(zeros) + s
      invariant zeros > 0 ==> |out| <= n
    {
      ZeroInFront(zeros);
      assert "0" + (Zeros(zeros) + s) == ("0" + Zeros(zeros)) + s;
      out := "0" + out;
      zeros := zeros + 1;
    }
  }

  /** cryptoRateDecimal: pad to nine digits, insert the point, trim zeros and then the point. */
  method RateDecimal(v: Rate) returns (out: string)
    requires v.Valid()
    ensures out == Printed(RoundedDown(v))
    ensures Same(Parsed(out), RoundedDown(v), SCALE)
  {
    var n := RoundedDown(v);
    var digits := PadDigits(Decimal(n), 9);
    out := Trimmed(digits);
    PrintedReadsBack(n);
  }

  lemma {:induction false} ZeroInFront(n: nat)
    ensures Zeros(n + 1) == ['0'] + Zeros(n)
    decreases n
  {
    if n > 0 {
      ZeroInFront(n - 1);
    }
  }

  // ------------------------------------------------------------------ the quote never overflows

  lemma {:induction false} SixteenBeatsTen(k: nat)
    ensures Pow10(k) <= Pow2(4 * k)
    decreases k
  {
    if k > 0 {
      SixteenBeatsTen(k - 1);
      assert Pow2(4 * k) == 2 * Pow2(4 * k - 1) == 4 * Pow2(4 * k - 2) == 8 * Pow2(4 * k - 3) == 16 * Pow2(4 * k - 4);
      assert 4 * k - 4 == 4 * (k - 1);
    }
  }

  lemma {:induction false} Pow10Join(a: nat, b: nat)
    ensures Pow10(a + b) == Pow10(a) * Pow10(b)
    decreases a
  {
    if a > 0 {
      Pow10Join(a - 1, b);
      assert Pow10(a + b) == 10 * Pow10(a - 1 + b);
    }
  }

  lemma {:induction false} Pow10Monotone(a: nat, b: nat)
    requires a <= b
    ensures Pow10(a) <= Pow10(b)
  {
    Pow10Join(a, b - a);
    assert Pow10(a) * Pow10(b - a) >= Pow10(a) by { MulLe(1, Pow10(b - a), Pow10(a)); }
  }

  lemma MoneyLimitIsPower()
    ensures MONEY_LIMIT == Pow10(11)
  {
    Pow10Eight();
    assert Pow10(11) == 1000 * Pow10(8);
  }

  lemma CeilAtMost(a: nat, b: nat)
    requires b > 0
    ensures CeilDiv(a, b) <= a
  {
    CeilLeast(a, b);
    MulLe(1, b, a);
    assert a * b >= a;
  }

  lemma CeilPositive(a: nat, b: nat)
    requires a > 0 && b > 0
    ensures CeilDiv(a, b) > 0
  {
    CeilLeast(a, b);
    assert 0 * b == 0;
  }

  /** A rate of at most eight decimals is quoted exactly when the input is valid: the 256-bit check never refuses. */
  lemma QuotedExactlyWhenValid(cents: int, rate: Rate, decimals: int, payment: int)
    requires 0 < rate.den <= SCALE
    ensures QuoteAtoms(cents, rate, decimals, payment).Some? <==>
              0 < cents <= 100_000_000_000 && rate.num > 0 && 0 <= payment <= decimals <= 18
  {
    if ValidAsset(cents, rate, decimals, payment) {
      var a := cents * Pow10(payment) * rate.den;
      var units := CeilDiv(a, rate.num * 100);
      CeilAtMost(a, rate.num * 100);
      ProductPositive(cents, Pow10(payment), rate.den);
      CeilPositive(a, rate.num * 100);
      QuoteBounded(cents, rate.den, payment, decimals, units);
      assert units * Pow10(decimals - payment) > 0 by { MulLe(1, units, Pow10(decimals - payment)); }
    }
  }

  lemma ProductPositive(a: nat, b: nat, c: nat)
    requires a > 0 && b > 0 && c > 0
    ensures a * b * c > 0
  {
    MulLe(1, a, b);
    MulLe(1, a * b, c);
  }

  lemma QuoteBounded(cents: nat, den: nat, payment: nat, decimals: nat, units: nat)
    requires cents <= MONEY_LIMIT && den <= SCALE && payment <= decimals <= 18 && units <= cents * Pow10(payment) * den
    ensures units * Pow10(decimals - payment) < Pow2(256)
  {
    var p, q := Pow10(payment), Pow10(decimals - payment);
    MoneyLimitIsPower();
    Pow10Eight();
    MulLe(cents, Pow10(11), p);
    MulLe(cents * p, Pow10(11) * p, den);
    MulLe(den, Pow10(8), Pow10(11) * p);
    assert units <= Pow10(11) * p * Pow10(8);
    MulLe(units, Pow10(11) * p * Pow10(8), q);
    Pow10Join(11, payment);
    Pow10Join(11 + payment, 8);
    Pow10Join(11 + payment + 8, decimals - payment);
    assert units * q <= Pow10(19 + decimals);
    Pow10Monotone(19 + decimals, 37);
    Pow10Monotone(38, 64);
    assert Pow10(38) == 10 * Pow10(37);
    SixteenBeatsTen(64);
  }
}

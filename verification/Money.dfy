/** Decimal amounts of USD and their conversion into the smallest unit of the token. */
module Money {
  import opened Wrappers

  /** A decimal number, coef * 10^exp.  Different pairs can denote the same number. */
  datatype Decimal = Decimal(coef: int, exp: int)

  const MIN_DECIMALS := 8
  const MAX_INT32 := 0x7fff_ffff
  const MIN_INT32 := -0x8000_0000

  function PowerOfTen(e: nat): (p: int)
    ensures p > 0
  {
    if e == 0 then 1 else 10 * PowerOfTen(e - 1)
  }

  function Scale(e: int): (r: real)
    ensures r > 0.0
  {
    if e >= 0 then PowerOfTen(e) as real else 1.0 / (PowerOfTen(-e) as real)
  }

  /** The number a decimal denotes. */
  function Value(d: Decimal): real {
    d.coef as real * Scale(d.exp)
  }

  predicate Equal(a: Decimal, b: Decimal) {
    Value(a) == Value(b)
  }

  function Min(a: int, b: int): int {
    if a < b then a else b
  }

  /** Addition rescales both operands to the smaller exponent. */
  function Add(a: Decimal, b: Decimal): Decimal {
    var e := Min(a.exp, b.exp);
    Decimal(a.coef * PowerOfTen(a.exp - e) + b.coef * PowerOfTen(b.exp - e), e)
  }

  /** The library's zero has exponent 1, not 0. */
  const ZERO := Decimal(0, 1)

  function Shift(d: Decimal, places: int): Decimal {
    d.(exp := d.exp + places)
  }

  /** Division of big integers, truncated toward zero. */
  function TruncatedQuotient(a: int, b: int): int
    requires b != 0
  {
    var q := Abs(a) / Abs(b);
    if (a < 0) == (b < 0) then q else -q
  }

  function Abs(a: int): nat {
    if a < 0 then -a else a
  }

  /** The integer quotient of two decimals; None where the library panics. */
  function Quotient(n: Decimal, d: Decimal): Option<int> {
    var e := n.exp - d.exp;
    if d.coef == 0 then None
    else if e > MAX_INT32 || e < MIN_INT32 then None
    else if e < 0 then Some(TruncatedQuotient(n.coef, NonZeroProduct(d.coef, PowerOfTen(-e))))
    else Some(TruncatedQuotient(n.coef * PowerOfTen(e), d.coef))
  }

  function NonZeroProduct(a: int, b: int): (p: int)
    requires a != 0 && b > 0
    ensures p == a * b && p != 0
    ensures a > 0 ==> p > 0
  {
    assert a < 0 ==> a * b < 0;
    a * b
  }

  /** USD to token units at a price; None is a panic (too few decimals, zero price, exponent overflow). */
  function FromUSD(usd: Decimal, price: Decimal, decimals: int): Option<int> {
    if decimals < MIN_DECIMALS then None else Quotient(Shift(usd, decimals), price)
  }

  function SumUSD(usd: seq<Decimal>): Decimal {
    if usd == [] then ZERO else Add(SumUSD(usd[..|usd| - 1]), usd[|usd| - 1])
  }

  lemma ScaleSuccessor(e: int)
    ensures Scale(e + 1) == 10.0 * Scale(e)
  {
    if e < 0 {
      var p := PowerOfTen(-e - 1) as real;
      assert PowerOfTen(-e) as real == 10.0 * p;
      if e == -1 { assert Scale(0) == 1.0; }
    }
  }

  lemma ScaleOfZero()
    ensures Scale(0) == 1.0
  {}

  lemma Regroup(x: real, y: real, z: real)
    ensures (x * y) * z == x * (y * z)
  {}

  lemma {:induction false} ScaleOfSum(a: int, b: int)
    ensures Scale(a + b) == Scale(a) * Scale(b)
    decreases if b < 0 then -b else b
  {
    hide Scale;
    if b > 0 {
      ScaleOfSum(a, b - 1);
      ScaleUp(a, b - 1);
    } else if b < 0 {
      ScaleOfSum(a, b + 1);
      ScaleDown(a, b);
    } else {
      ScaleOfZero();
    }
  }

  lemma ScaleUp(a: int, b: int)
    requires Scale(a + b) == Scale(a) * Scale(b)
    ensures Scale(a + b + 1) == Scale(a) * Scale(b + 1)
  {
    hide Scale;
    ScaleSuccessor(a + b);
    ScaleSuccessor(b);
    Times10(Scale(a), Scale(b));
  }

  lemma ScaleDown(a: int, b: int)
    requires Scale(a + (b + 1)) == Scale(a) * Scale(b + 1)
    ensures Scale(a + b) == Scale(a) * Scale(b)
  {
    hide Scale;
    ScaleSuccessor(a + b);
    ScaleSuccessor(b);
    Times10(Scale(a), Scale(b));
  }

  lemma Times10(x: real, y: real)
    ensures 10.0 * (x * y) == x * (10.0 * y)
  {}

  /** A coefficient rescaled to a smaller exponent denotes the same number. */
  lemma Rescaled(d: Decimal, e: int)
    requires e <= d.exp
    ensures (d.coef * PowerOfTen(d.exp - e)) as real * Scale(e) == Value(d)
  {
    hide Scale, PowerOfTen;
    ScaleOfSum(d.exp - e, e);
    NaturalScale(d.exp - e);
    RescaledArithmetic(d.coef, PowerOfTen(d.exp - e), Scale(e));
  }

  lemma RescaledArithmetic(c: int, p: int, s: real)
    ensures (c * p) as real * s == c as real * (p as real * s)
  {
    ProductAsReal(c, p);
    Regroup(c as real, p as real, s);
  }

  lemma ProductAsReal(a: int, b: int)
    ensures (a * b) as real == a as real * b as real
  {}

  lemma NaturalScale(e: nat)
    ensures Scale(e) == PowerOfTen(e) as real
  {}

  lemma Distribute(x: int, y: int, s: real)
    ensures (x + y) as real * s == x as real * s + y as real * s
  {}

  lemma AddIsExact(a: Decimal, b: Decimal)
    ensures Value(Add(a, b)) == Value(a) + Value(b)
  {
    hide Scale, PowerOfTen;
    var e := Min(a.exp, b.exp);
    Rescaled(a, e);
    Rescaled(b, e);
    Distribute(a.coef * PowerOfTen(a.exp - e), b.coef * PowerOfTen(b.exp - e), Scale(e));
  }

  lemma DivisionSplits(a: int, b: int)
    requires b > 0
    ensures a as real / b as real == (a / b) as real + (a % b) as real / b as real
  {
    var q, r := a / b, a % b;
    assert a == q * b + r;
    ProductAsReal(q, b);
    assert a as real == q as real * b as real + r as real;
  }

  lemma ProperFraction(r: int, b: int)
    requires 0 <= r < b
    ensures 0.0 <= r as real / b as real < 1.0
  {}

  lemma QuotientIsFloor(a: int, b: int)
    requires a >= 0 && b > 0
    ensures (a as real / b as real).Floor == a / b
  {
    DivisionSplits(a, b);
    ProperFraction(a % b, b);
  }

  lemma CancelScale(n: real, d: real, s: real)
    requires d > 0.0 && s > 0.0
    ensures d * s > 0.0 && (n * s) / (d * s) == n / d
  {
    var q := n / d;
    assert q * d == n;
    Regroup(q, d, s);
    assert q * (d * s) == n * s;
  }

  lemma ValueIsPositive(d: Decimal)
    requires d.coef > 0
    ensures Value(d) > 0.0
  {}

  /** The exact number of token units, before rounding down. */
  function Exact(usd: Decimal, price: Decimal, decimals: int): real
    requires price.coef > 0
  {
    ValueIsPositive(price);
    Value(usd) * Scale(decimals) / Value(price)
  }

  lemma ShiftScales(d: Decimal, places: int)
    ensures Value(Shift(d, places)) == Value(d) * Scale(places)
  {
    hide Scale;
    ScaleOfSum(d.exp, places);
    Regroup(d.coef as real, Scale(d.exp), Scale(places));
  }

  function Ratio(c: int, b: int, e: int): real
    requires b > 0
  {
    (c as real * Scale(e)) / b as real
  }

  lemma RatioWithoutScale(c: int, b: int, n: int, m: int)
    requires b > 0
    ensures b as real * Scale(m) > 0.0
    ensures (c as real * Scale(n)) / (b as real * Scale(m)) == Ratio(c, b, n - m)
  {
    hide Scale;
    ScaleOfSum(n - m, m);
    Regroup(c as real, Scale(n - m), Scale(m));
    CancelScale(c as real * Scale(n - m), b as real, Scale(m));
  }

  lemma InverseScale(e: int)
    requires e < 0
    ensures Scale(e) == 1.0 / PowerOfTen(-e) as real
  {}

  lemma NegativeScale(c: int, b: int, p: int)
    requires b > 0 && p > 0
    ensures b * p > 0 && (c as real * (1.0 / p as real)) / b as real == c as real / (b * p) as real
  {
    ProductAsReal(b, p);
    var x := c as real * (1.0 / p as real);
    assert x * p as real == c as real;
    CancelScale(x, b as real, p as real);
  }

  lemma TruncatedIsFloor(a: int, b: int)
    requires a >= 0 && b > 0
    ensures TruncatedQuotient(a, b) == a / b
  {}

  lemma SmallerExponent(c: int, b: int, e: int)
    requires c >= 0 && b > 0 && e < 0
    ensures b * PowerOfTen(-e) > 0
    ensures TruncatedQuotient(c, b * PowerOfTen(-e)) == Ratio(c, b, e).Floor
  {
    hide Scale, PowerOfTen;
    var p := PowerOfTen(-e);
    InverseScale(e);
    NegativeScale(c, b, p);
    SameRatio(c as real * Scale(e), c as real * (1.0 / p as real), b as real);
    QuotientIsFloor(c, b * p);
    TruncatedIsFloor(c, b * p);
  }

  lemma LargerExponent(c: int, b: int, e: nat)
    requires c >= 0 && b > 0
    ensures TruncatedQuotient(c * PowerOfTen(e), b) == Ratio(c, b, e).Floor
  {
    hide Scale, PowerOfTen;
    NaturalScale(e);
    var p := PowerOfTen(e);
    assert (c * p) as real == c as real * Scale(e) by { ProductAsReal(c, p); }
    ProductAsReal(c, p);
    NonNegativeProduct(c, p);
    QuotientIsFloor(c * p, b);
    TruncatedIsFloor(c * p, b);
  }

  lemma NonNegativeProduct(a: int, b: int)
    requires a >= 0 && b >= 0
    ensures a * b >= 0
  {}

  lemma QuotientFloors(n: Decimal, d: Decimal)
    requires n.coef >= 0 && d.coef > 0
    ensures Value(d) > 0.0
    ensures Quotient(n, d).Some? ==> Quotient(n, d).value == (Value(n) / Value(d)).Floor
  {
    hide Scale, PowerOfTen, TruncatedQuotient, Ratio;
    var e := n.exp - d.exp;
    RatioWithoutScale(n.coef, d.coef, n.exp, d.exp);
    assert Value(n) / Value(d) == Ratio(n.coef, d.coef, e);
    if e < 0 {
      SmallerExponent(n.coef, d.coef, e);
      assert NonZeroProduct(d.coef, PowerOfTen(-e)) == d.coef * PowerOfTen(-e);
    } else {
      LargerExponent(n.coef, d.coef, e);
    }
  }

  lemma SameRatio(x: real, y: real, z: real)
    requires x == y && z > 0.0
    ensures x / z == y / z
  {}

  /** For a positive price and a nonnegative amount the conversion is the floor of the exact quotient. */
  lemma FromUSDIsFloor(usd: Decimal, price: Decimal, decimals: int)
    requires usd.coef >= 0 && price.coef > 0
    ensures FromUSD(usd, price, decimals).Some? <==>
              8 <= decimals && -0x8000_0000 <= usd.exp + decimals - price.exp <= 0x7fff_ffff
    ensures FromUSD(usd, price, decimals).Some? ==>
              FromUSD(usd, price, decimals).value == Exact(usd, price, decimals).Floor
  {
    hide Value, Scale, PowerOfTen, TruncatedQuotient;
    ShiftScales(usd, decimals);
    QuotientFloors(Shift(usd, decimals), price);
    SameRatio(Value(Shift(usd, decimals)), Value(usd) * Scale(decimals), Value(price));
    assert Exact(usd, price, decimals) == Value(usd) * Scale(decimals) / Value(price);
  }

  lemma ExactIgnoresRepresentation(a: Decimal, b: Decimal, price: Decimal, decimals: int)
    requires price.coef > 0 && Equal(a, b)
    ensures Exact(a, price, decimals) == Exact(b, price, decimals)
  {
    hide Value, Scale;
  }

  /** Whatever coefficient and exponent represent the amount, the tokens are the same. */
  lemma FromUSDIgnoresRepresentation(a: Decimal, b: Decimal, price: Decimal, decimals: int)
    requires a.coef >= 0 && b.coef >= 0 && price.coef > 0 && Equal(a, b)
    requires FromUSD(a, price, decimals).Some? && FromUSD(b, price, decimals).Some?
    ensures FromUSD(a, price, decimals) == FromUSD(b, price, decimals)
  {
    hide Value, Scale, FromUSD, Exact;
    FromUSDIsFloor(a, price, decimals);
    FromUSDIsFloor(b, price, decimals);
    ExactIgnoresRepresentation(a, b, price, decimals);
  }

  /** What one payout of a batch sends: the converted amount; a panic sends nothing. */
  function Tokens(usd: Decimal, price: Decimal, decimals: int): int {
    match FromUSD(usd, price, decimals) case Some(t) => t case None => 0
  }

  function SumTokens(usd: seq<Decimal>, price: Decimal, decimals: int): int {
    if usd == [] then 0
    else SumTokens(usd[..|usd| - 1], price, decimals) + Tokens(usd[|usd| - 1], price, decimals)
  }

  predicate AllConvert(usd: seq<Decimal>, price: Decimal, decimals: int) {
    forall u <- usd :: u.coef >= 0 && FromUSD(u, price, decimals).Some?
  }

  lemma ExactOfZero(price: Decimal, decimals: int)
    requires price.coef > 0
    ensures Exact(ZERO, price, decimals) == 0.0
  {
    hide Scale;
    assert Value(ZERO) == 0.0;
    ValueIsPositive(price);
  }

  lemma ExactIsAdditive(a: Decimal, b: Decimal, price: Decimal, decimals: int)
    requires price.coef > 0
    ensures Exact(Add(a, b), price, decimals) == Exact(a, price, decimals) + Exact(b, price, decimals)
  {
    hide Value, Scale, Add;
    AddIsExact(a, b);
    ValueIsPositive(price);
    SumOfRatios(Value(a), Value(b), Scale(decimals), Value(price));
  }

  lemma SumOfRatios(a: real, b: real, s: real, p: real)
    requires p > 0.0
    ensures (a + b) * s / p == a * s / p + b * s / p
  {
    assert (a + b) * s == a * s + b * s;
    var x, y := a * s, b * s;
    assert (x + y) / p == x / p + y / p;
  }

  lemma SumIsNonNegative(usd: seq<Decimal>)
    requires forall u <- usd :: u.coef >= 0
    ensures SumUSD(usd).coef >= 0
  {
    if usd != [] {
      SumIsNonNegative(usd[..|usd| - 1]);
      var a, b := SumUSD(usd[..|usd| - 1]), usd[|usd| - 1];
      var e := Min(a.exp, b.exp);
      NonNegativeProduct(a.coef, PowerOfTen(a.exp - e));
      NonNegativeProduct(b.coef, PowerOfTen(b.exp - e));
    }
  }

  /** Rounding each payout down loses less than one unit per payout against the exact total. */
  lemma {:induction false} SumTokensNearExact(usd: seq<Decimal>, price: Decimal, decimals: int)
    requires price.coef > 0 && AllConvert(usd, price, decimals)
    ensures SumTokens(usd, price, decimals) as real <= Exact(SumUSD(usd), price, decimals)
    ensures usd != [] ==> Exact(SumUSD(usd), price, decimals) < (SumTokens(usd, price, decimals) + |usd|) as real
  {
    hide FromUSD, Exact, Add;
    if usd == [] {
      ExactOfZero(price, decimals);
    } else {
      var init, last := usd[..|usd| - 1], usd[|usd| - 1];
      SumTokensNearExact(init, price, decimals);
      ExactIsAdditive(SumUSD(init), last, price, decimals);
      FromUSDIsFloor(last, price, decimals);
      if init == [] { ExactOfZero(price, decimals); }
    }
  }

  /** At a fixed price a batch sends at most the previewed estimate, and less than one unit a payout below it. */
  lemma BatchNearEstimate(usd: seq<Decimal>, price: Decimal, decimals: int)
    requires price.coef > 0 && AllConvert(usd, price, decimals)
    requires FromUSD(SumUSD(usd), price, decimals).Some?
    ensures var estimate := FromUSD(SumUSD(usd), price, decimals).value;
            var sent := SumTokens(usd, price, decimals);
            sent <= estimate && (usd != [] ==> estimate < sent + |usd|)
  {
    hide FromUSD, Exact;
    SumTokensNearExact(usd, price, decimals);
    SumIsNonNegative(usd);
    FromUSDIsFloor(SumUSD(usd), price, decimals);
  }

  /** The amount recorded from the summed USD of one payout is the amount of the raw transaction. */
  lemma SumOfOneConvertsAlike(usd: Decimal, price: Decimal, decimals: int)
    requires usd.coef >= 0 && price.coef > 0
    requires FromUSD(SumUSD([usd]), price, decimals).Some? && FromUSD(usd, price, decimals).Some?
    ensures FromUSD(SumUSD([usd]), price, decimals) == FromUSD(usd, price, decimals)
  {
    hide FromUSD, Value, Scale;
    SumOfOne(usd);
    SumIsNonNegative([usd]);
    FromUSDIgnoresRepresentation(SumUSD([usd]), usd, price, decimals);
  }

  lemma SumOfOne(usd: Decimal)
    ensures Equal(SumUSD([usd]), usd)
  {
    hide Scale, Add;
    assert [usd][..0] == [];
    assert SumUSD([usd]) == Add(ZERO, usd);
    AddIsExact(ZERO, usd);
    assert Value(ZERO) == 0.0;
  }
}

/** Lamports to USD with eight decimals, and the per-deposit USD caps (utils/pricing.rs). */
module Pricing {
  import opened Bytes
  import opened Results
  import opened Arithmetic

  /** What the oracle reports: the value is price * 10^exponent USD per SOL. */
  datatype PriceData = PriceData(price: i64, exponent: i32, confidence: u64)

  const LAMPORTS_PER_SOL: int := 1_000_000_000

  function Pow10(k: nat): (p: nat)
    ensures p > 0
  {
    if k == 0 then 1 else 10 * Pow10(k - 1)
  }

  /** A signed value cast to u128: negative values wrap. */
  function AsU128(n: i64): u128 {
    if n >= 0 then n else n + TWO_128
  }

  /** The oracle account either yields no fresh price for the feed, or a price that must be positive. */
  function CalculateSolPrice(oracle: Option<PriceData>): Result<PriceData> {
    if oracle.None? || oracle.value.price <= 0 then Err(InvalidPrice) else Ok(oracle.value)
  }

  /** Checked u128 arithmetic: a product that does not fit is InvalidAmount, a
      power of ten that does not fit panics. */
  function CalculateUsdAmount(lamports: u64, p: PriceData): Result<u128> {
    var product := Product(lamports, AsU128(p.price));
    var adjustment := p.exponent + 8;
    if product >= TWO_128 then Err(InvalidAmount)
    else if adjustment >= 39 || adjustment <= -39 then Err(ArithmeticPanic)
    else if adjustment >= 0 then
      var scaled := Product(Pow10(adjustment), product);
      if scaled >= TWO_128 then Err(InvalidAmount) else Ok(Quotient(scaled, LAMPORTS_PER_SOL))
    else
      Ok(Quotient(Quotient(product, Pow10(-adjustment)), LAMPORTS_PER_SOL))
  }

  function CheckUsdCaps(minCap: u128, maxCap: u128, confidenceThreshold: u64,
                        lamports: u64, oracle: Option<PriceData>): Status {
    match CalculateSolPrice(oracle)
    case Err(e) => Fail(e)
    case Ok(p) =>
      if confidenceThreshold > 0 && p.confidence > confidenceThreshold then Fail(InvalidPrice)
      else
        match CalculateUsdAmount(lamports, p)
        case Err(e) => Fail(e)
        case Ok(usd) =>
          if usd < minCap then Fail(BelowMinCap)
          else if usd > maxCap then Fail(AboveMaxCap)
          else Pass
  }

  // ---- The exact value ----

  ghost function TenTo(k: int): (r: real)
    ensures r > 0.0
    decreases if k < 0 then -k else k
  {
    if k == 0 then 1.0 else if k > 0 then 10.0 * TenTo(k - 1) else TenTo(k + 1) / 10.0
  }

  /** The USD value of the lamports in units of 10^-8 USD, before any rounding. */
  ghost function ExactUsd(lamports: u64, p: PriceData): real
    requires p.price > 0
  {
    Scale(TenTo(p.exponent - 1), Product(lamports, p.price))
  }

  /** v is x rounded down. */
  ghost predicate IsFloor(v: int, x: real) {
    v as real <= x < v as real + 1.0
  }

  lemma TenToStep(k: int)
    ensures TenTo(k + 1) == Scale(TenTo(k), 10)
  {
  }

  /** Multiplying by a whole power of ten shifts the exponent. */
  lemma {:induction false} TenToShift(k: int, b: nat)
    ensures Scale(TenTo(k), Pow10(b)) == TenTo(k + b)
    decreases b
  {
    if b > 0 {
      TenToShift(k + 1, b - 1);
      TenToStep(k);
      ScaleTwice(TenTo(k), 10, Pow10(b - 1));
      assert Pow10(b) == Product(10, Pow10(b - 1));
    }
  }

  lemma {:induction false} TenToWhole(a: nat)
    ensures TenTo(a) == Pow10(a) as real
  {
    if a > 0 {
      TenToWhole(a - 1);
      TenToStep(a - 1);
    }
  }

  lemma {:induction false} Pow10Plus(a: nat, b: nat)
    ensures Product(Pow10(a), Pow10(b)) == Pow10(a + b)
  {
    if a > 0 {
      Pow10Plus(a - 1, b);
      Rearrange(Pow10(b), Pow10(a - 1), 10);
    }
  }

  lemma {:induction false} Pow10Monotone(a: nat, b: nat)
    requires a <= b
    ensures Pow10(a) <= Pow10(b)
  {
    if a < b {
      Pow10Monotone(a, b - 1);
    }
  }

  /** A quotient is the floor of x when x times the divisor is the dividend. */
  lemma QuotientIsFloor(n: nat, d: nat, x: real)
    requires d > 0 && Scale(x, d) == n as real
    ensures IsFloor(Quotient(n, d), x)
  {
    var v := Quotient(n, d);
    QuotientBounds(n, d);
    ScaleWhole(v, d);
    ScaleWhole(v + 1, d);
    assert Product(v + 1, d) == d * v + d;
    ScaleOrder(v as real, x, d);
    ScaleOrder(x, (v + 1) as real, d);
  }

  /** If scale is up / down, then product * scale is product * up divided by down. */
  lemma ScaledFloor(product: nat, up: nat, down: nat, scale: real)
    requires down > 0 && Scale(scale, down) == up as real
    ensures IsFloor(Quotient(Product(up, product), down), Scale(scale, product))
  {
    ScaleTwice(scale, down, product);
    ScaleWhole(up, product);
    QuotientIsFloor(Product(up, product), down, Scale(scale, product));
  }

  lemma FloorScaledUp(product: nat, up: nat, k: nat)
    ensures IsFloor(Quotient(Product(Pow10(up), product), Pow10(k)), Scale(TenTo(up - k), product))
  {
    TenToShift(up - k, k);
    TenToWhole(up);
    ScaledFloor(product, Pow10(up), Pow10(k), TenTo(up - k));
  }

  lemma FloorScaledDown(product: nat, down: nat, k: nat)
    ensures IsFloor(Quotient(Quotient(product, Pow10(down)), Pow10(k)), Scale(TenTo(0 - down - k), product))
  {
    NestedQuotient(product, Pow10(down), Pow10(k));
    Pow10Plus(down, k);
    TenToShift(0 - down - k, down + k);
    ScaledFloor(product, 1, Pow10(down + k), TenTo(0 - down - k));
  }

  /** Whatever branch the exponent selects, the computed value is the exact value rounded down once. */
  lemma UsdIsSingleFloor(lamports: u64, p: PriceData)
    requires p.price > 0 && CalculateUsdAmount(lamports, p).Ok?
    ensures IsFloor(CalculateUsdAmount(lamports, p).value, ExactUsd(lamports, p))
  {
    var product := Product(lamports, p.price);
    var adjustment := p.exponent + 8;
    assert Pow10(9) == LAMPORTS_PER_SOL;
    if adjustment >= 0 {
      FloorScaledUp(product, adjustment, 9);
    } else {
      FloorScaledDown(product, -adjustment, 9);
    }
  }

  /** Splitting a deposit never raises its metered value, and lowers it by at most one unit. */
  lemma UsdSuperadditive(a: u64, b: u64, p: PriceData)
    requires p.price > 0 && a + b < TWO_64
    requires CalculateUsdAmount(a, p).Ok? && CalculateUsdAmount(b, p).Ok? && CalculateUsdAmount(a + b, p).Ok?
    ensures var ua, ub, uab := CalculateUsdAmount(a, p).value, CalculateUsdAmount(b, p).value,
            CalculateUsdAmount(a + b, p).value;
            ua <= uab && ua + ub <= uab <= ua + ub + 1
  {
    UsdIsSingleFloor(a, p);
    UsdIsSingleFloor(b, p);
    UsdIsSingleFloor(a + b, p);
    ExactUsdAdds(a, b, p);
  }

  lemma ExactUsdAdds(a: u64, b: u64, p: PriceData)
    requires p.price > 0 && a + b < TWO_64
    ensures ExactUsd(a + b, p) == ExactUsd(a, p) + ExactUsd(b, p)
    ensures ExactUsd(b, p) >= 0.0
  {
    ScaleSum(TenTo(p.exponent - 1), Product(a, p.price), Product(b, p.price));
  }

  /** The power of ten fits in u128 and, for exponents above -8, so does the scaled product. */
  predicate Convertible(lamports: u64, p: PriceData)
    requires p.price > 0
  {
    && -46 <= p.exponent <= 30
    && (p.exponent > -8 ==> Product(Pow10(p.exponent + 8), Product(lamports, p.price)) < TWO_128)
  }

  /** Exactly when a positive price yields a value. No u64 amount and positive i64
      price fails for an exponent from -46 to -8. */
  lemma UsdDefined(lamports: u64, p: PriceData)
    requires p.price > 0
    ensures CalculateUsdAmount(lamports, p).Ok? <==> Convertible(lamports, p)
  {
    ProductFits(lamports, p.price);
    if p.exponent == -8 {
      assert Product(Pow10(0), Product(lamports, p.price)) == Product(lamports, p.price);
    }
  }

  lemma ProductFits(lamports: u64, price: i64)
    requires price > 0
    ensures Product(lamports, price) < TWO_128
  {
    MulMonotone(lamports, TWO_64, price);
  }

  /** The bound 39 in CalculateUsdAmount is where a power of ten leaves u128. */
  lemma Pow10FitsU128(k: nat)
    ensures Pow10(k) < TWO_128 <==> k < 39
  {
    assert Pow10(10) == 1_00000_00000;
    assert Pow10(20) == 1_00000_00000_00000_00000;
    assert Pow10(30) == 1_00000_00000_00000_00000_00000_00000;
    assert Pow10(38) == 1_00000_00000_00000_00000_00000_00000_00000_000;
    assert Pow10(39) == 1_00000_00000_00000_00000_00000_00000_00000_0000;
    if k < 39 {
      Pow10Monotone(k, 38);
    } else {
      Pow10Monotone(39, k);
    }
  }

  // ---- The caps of a deposit ----

  /** A fresh, positive price, precise enough for the threshold if there is one, at
      which the lamports have a value. */
  predicate Priced(confidenceThreshold: u64, lamports: u64, oracle: Option<PriceData>) {
    && oracle.Some? && oracle.value.price > 0
    && (confidenceThreshold == 0 || oracle.value.confidence <= confidenceThreshold)
    && Convertible(lamports, oracle.value)
  }

  /** The exact value of the lamports lies between the caps, the upper one included
      up to the unit of 10^-8 USD that rounding down forgives. */
  ghost predicate WithinCaps(minCap: u128, maxCap: u128, lamports: u64, p: PriceData)
    requires p.price > 0
  {
    minCap as real <= ExactUsd(lamports, p) < maxCap as real + 1.0
  }

  /** Comparing whole numbers with a value is comparing them with its floor. */
  lemma FloorBetween(v: int, x: real, low: int, high: int)
    requires IsFloor(v, x)
    ensures low <= v <= high <==> low as real <= x < high as real + 1.0
  {
  }

  /** A deposit passes the USD caps iff its lamports can be priced and their exact
      value is between them; and each refusal says which of the two it is. */
  lemma CapsExactly(minCap: u128, maxCap: u128, confidenceThreshold: u64, lamports: u64, oracle: Option<PriceData>)
    ensures var r := CheckUsdCaps(minCap, maxCap, confidenceThreshold, lamports, oracle);
            var priced := Priced(confidenceThreshold, lamports, oracle);
            && (r.Pass? <==> priced && WithinCaps(minCap, maxCap, lamports, oracle.value))
            && (priced ==>
                  && CalculateUsdAmount(lamports, oracle.value).Ok?
                  && (r.Pass? <==> minCap <= CalculateUsdAmount(lamports, oracle.value).value <= maxCap))
            && (r == Fail(BelowMinCap) <==> priced && ExactUsd(lamports, oracle.value) < minCap as real)
            && (r == Fail(AboveMaxCap) <==> priced && ExactUsd(lamports, oracle.value) >= maxCap as real + 1.0
                                            && ExactUsd(lamports, oracle.value) >= minCap as real)
  {
    if oracle.Some? && oracle.value.price > 0 {
      UsdDefined(lamports, oracle.value);
      if Convertible(lamports, oracle.value) {
        var usd := CalculateUsdAmount(lamports, oracle.value).value;
        UsdIsSingleFloor(lamports, oracle.value);
        FloorBetween(usd, ExactUsd(lamports, oracle.value), minCap, maxCap);
        FloorBetween(usd, ExactUsd(lamports, oracle.value), minCap, usd);
      }
    }
  }
}

/** The wager and its Kelly sizing (crates/txodds-types/src/wager.rs). */
module Wagers {
  import opened Prelude

  datatype Selection = Home | Draw | Away

  datatype WagerStatus =
    | Proposed | Debated | NoBet | ProofPassed | ProofFailed | Signed | Settled | Refunded

  /** The fields of the Rust struct that carry numbers, identity or state. */
  datatype Wager = Wager(
    wagerId: string,
    fixtureId: nat,
    selection: Selection,
    modelProb: real,
    marketImplied: real,
    edge: real,
    fairOdds: real,
    stakeSol: real,
    proofRef: Option<string>,
    status: WagerStatus)

  function ImpliedProbability(decimalOdds: real): Option<real> {
    if decimalOdds > 1.0 then Some(1.0 / decimalOdds) else None
  }

  function KellyFraction(modelProb: real, odds: real): real {
    if modelProb <= 0.0 || modelProb >= 1.0 || odds <= 1.0 then 0.0
    else
      var b := odds - 1.0;
      var q := 1.0 - modelProb;
      Clamp((b * modelProb - q) / b, 0.0, 1.0)
  }

  // ---- What the fraction is for ------------------------------------------

  /** The properties of the natural logarithm that the Kelly theorem needs: it lies below its
      tangent at one, touching it only there, and turns quotients into differences. */
  ghost predicate IsLn(ln: real -> real) {
    && (forall x: real :: BelowTangent(ln, x))
    && (forall x: real, y: real :: QuotientLaw(ln, x, y))
  }

  ghost predicate BelowTangent(ln: real -> real, x: real) {
    x > 0.0 ==> ln(x) <= x - 1.0 && (x != 1.0 ==> ln(x) < x - 1.0)
  }

  ghost predicate QuotientLaw(ln: real -> real, x: real, y: real) {
    x > 0.0 && y > 0.0 ==> ln(x / y) == ln(x) - ln(y)
  }

  /** Expected log growth of a bankroll that stakes the fraction `f` at net odds `b`. */
  ghost function Growth(ln: real -> real, p: real, b: real, f: real): real {
    p * ln(1.0 + b * f) + (1.0 - p) * ln(1.0 - f)
  }

  lemma DivIntro(x: real, y: real, z: real)
    requires y > 0.0 && x == z * y
    ensures x / y == z
  {}

  lemma MulLe(a: real, x: real, y: real)
    requires a >= 0.0 && x <= y
    ensures a * x <= a * y
  {}

  lemma MulLt(a: real, x: real, y: real)
    requires a > 0.0 && x < y
    ensures a * x < a * y
  {}

  /** Multiplying by a positive number keeps the order. */
  lemma ScaleOrder(x: real, y: real, t: real)
    requires t > 0.0
    ensures x * t >= y * t <==> x >= y
  {
    var d := x - y;
    assert d * t == x * t - y * t;
    if d >= 0.0 { MulLe(t, 0.0, d); } else { MulLt(t, d, 0.0); }
  }

  /** The fraction in closed form: positive edge over the bookmaker's losing share. The upper
      clamp never binds: the fraction stays below one. */
  lemma KellyIsEdgeOverOneMinusImplied(p: real, odds: real)
    requires 0.0 < p < 1.0 && odds > 1.0
    ensures KellyFraction(p, odds) == Max(0.0, p - 1.0 / odds) / (1.0 - 1.0 / odds)
    ensures 0.0 <= KellyFraction(p, odds) <= p
    ensures KellyFraction(p, odds) > 0.0 <==> p > 1.0 / odds
  {
    var b, q := odds - 1.0, 1.0 - p;
    var u := 1.0 / odds;
    assert u * odds == 1.0;
    var raw := (b * p - q) / b;
    assert b * p - q == p * odds - 1.0;
    assert raw * b == p * odds - 1.0;
    assert 1.0 - u > 0.0;
    var g := (p - u) / (1.0 - u);
    assert g * (1.0 - u) == p - u;
    assert g * ((1.0 - u) * odds) == (p - u) * odds by {
      assert (g * (1.0 - u)) * odds == (p - u) * odds;
    }
    assert (1.0 - u) * odds == b;
    assert (p - u) * odds == p * odds - 1.0;
    assert g * b == raw * b;
    assert (g - raw) * b == 0.0;
    assert g == raw;
    assert (p - raw) * b == q;
    assert raw < p;
    if p > u {
      assert g > 0.0;
    } else {
      assert g <= 0.0;
    }
  }

  /** Moving a positive argument from `y` to `x` gains at most the relative change. */
  lemma LnTangent(ln: real -> real, x: real, y: real)
    requires IsLn(ln) && x > 0.0 && y > 0.0
    ensures ln(x) - ln(y) <= (x - y) / y
    ensures x != y ==> ln(x) - ln(y) < (x - y) / y
  {
    var r := x / y;
    QuotientFacts(x, y, r);
    assert QuotientLaw(ln, x, y);
    assert BelowTangent(ln, r);
  }

  lemma QuotientFacts(x: real, y: real, r: real)
    requires x > 0.0 && y > 0.0 && r == x / y
    ensures r > 0.0 && (x - y) / y == r - 1.0
    ensures x != y ==> r != 1.0
  {
    assert r * y == x;
    DivIntro(x - y, y, r - 1.0);
  }

  /** First-order condition: at the Kelly fraction the slope vanishes, or points down at zero. */
  lemma KellyStationary(p: real, odds: real, f: real)
    requires 0.0 < p < 1.0 && odds > 1.0 && 0.0 <= f < 1.0
    ensures var k, b := KellyFraction(p, odds), odds - 1.0;
            && 0.0 <= k < 1.0 && 1.0 + b * k > 0.0
            && p * (b * (f - k) / (1.0 + b * k)) + (1.0 - p) * ((k - f) / (1.0 - k)) <= 0.0
  {
    KellyIsEdgeOverOneMinusImplied(p, odds);
    var k, b, q := KellyFraction(p, odds), odds - 1.0, 1.0 - p;
    MulLe(b, 0.0, k);
    if k == 0.0 {
      assert b * p - q <= 0.0 by {
        assert p <= 1.0 / odds;
        MulLe(odds, p, 1.0 / odds);
        assert odds * (1.0 / odds) == 1.0;
      }
      SlopeAtZero(p, q, b, f);
    } else {
      var raw := (b * p - q) / b;
      assert raw == k;
      assert k * b == b * p - q;
      InteriorSlope(p, q, b, k, f);
    }
  }

  lemma SlopeAtZero(p: real, q: real, b: real, f: real)
    requires b * p - q <= 0.0 && f >= 0.0
    ensures p * (b * (f - 0.0) / (1.0 + b * 0.0)) + q * ((0.0 - f) / (1.0 - 0.0)) <= 0.0
  {
    assert b * (f - 0.0) / (1.0 + b * 0.0) == b * f;
    assert (0.0 - f) / (1.0 - 0.0) == -f;
    MulLe(f, b * p - q, 0.0);
    assert p * (b * f) + q * -f == f * (b * p - q);
  }

  lemma InteriorSlope(p: real, q: real, b: real, k: real, f: real)
    requires p > 0.0 && q > 0.0 && b > 0.0 && p + q == 1.0 && 0.0 < k < 1.0
    requires k * b == b * p - q
    requires 1.0 + b * k > 0.0
    ensures p * (b * (f - k) / (1.0 + b * k)) + q * ((k - f) / (1.0 - k)) == 0.0
  {
    var gain, loss := b * (f - k) / (1.0 + b * k), (k - f) / (1.0 - k);
    var odds := b + 1.0;
    assert p * gain == b * (f - k) / odds by {
      assert 1.0 + b * k == p * odds;
      assert gain * (1.0 + b * k) == b * (f - k);
      Regroup(gain, p, odds, b * (f - k));
    }
    assert q * loss == b * (k - f) / odds by {
      assert (1.0 - k) * b == q * odds;
      assert loss * (1.0 - k) == k - f;
      assert (loss * (1.0 - k)) * b == b * (k - f);
      assert loss * ((1.0 - k) * b) == b * (k - f);
      Regroup(loss, q, odds, b * (k - f));
    }
    Opposites(b * (f - k), b * (k - f), odds);
  }

  lemma Regroup(a: real, p: real, d: real, n: real)
    requires a * (p * d) == n && d > 0.0
    ensures p * a == n / d
  {
    assert (p * a) * d == n;
    DivIntro(n, d, p * a);
  }

  lemma Opposites(x: real, y: real, d: real)
    requires x == -y && d > 0.0
    ensures x / d + y / d == 0.0
  {}

  /** Kelly is the unique growth-optimal stake among all fractions below the whole bankroll,
      including the case where the formula is clamped to no bet. */
  lemma KellyIsGrowthOptimal(ln: real -> real, p: real, odds: real, f: real)
    requires IsLn(ln) && 0.0 < p < 1.0 && odds > 1.0 && 0.0 <= f < 1.0
    ensures var b, kelly := odds - 1.0, KellyFraction(p, odds);
            && 0.0 <= kelly < 1.0
            && Growth(ln, p, b, f) <= Growth(ln, p, b, kelly)
            && (f != kelly ==> Growth(ln, p, b, f) < Growth(ln, p, b, kelly))
  {
    var b, kelly := odds - 1.0, KellyFraction(p, odds);
    KellyStationary(p, odds, f);
    StationaryIsOptimal(ln, p, b, kelly, f);
  }

  lemma StationaryIsOptimal(ln: real -> real, p: real, b: real, k: real, f: real)
    requires IsLn(ln) && 0.0 < p < 1.0 && b > 0.0 && 0.0 <= f < 1.0 && 0.0 <= k < 1.0
    requires 1.0 + b * k > 0.0 && p * (b * (f - k) / (1.0 + b * k)) + (1.0 - p) * ((k - f) / (1.0 - k)) <= 0.0
    ensures Growth(ln, p, b, f) <= Growth(ln, p, b, k)
    ensures f != k ==> Growth(ln, p, b, f) < Growth(ln, p, b, k)
  {
    WinTangent(ln, b, f, k);
    LoseTangent(ln, f, k);
    Weigh(p, 1.0 - p, ln(1.0 + b * f), ln(1.0 + b * k), ln(1.0 - f), ln(1.0 - k),
      b * (f - k) / (1.0 + b * k), (k - f) / (1.0 - k), f != k);
  }

  lemma WinTangent(ln: real -> real, b: real, f: real, k: real)
    requires IsLn(ln) && b > 0.0 && f >= 0.0 && 1.0 + b * k > 0.0
    ensures ln(1.0 + b * f) - ln(1.0 + b * k) <= b * (f - k) / (1.0 + b * k)
  {
    MulLe(b, 0.0, f);
    assert (1.0 + b * f) - (1.0 + b * k) == b * (f - k);
    LnTangent(ln, 1.0 + b * f, 1.0 + b * k);
  }

  lemma LoseTangent(ln: real -> real, f: real, k: real)
    requires IsLn(ln) && f < 1.0 && k < 1.0
    ensures ln(1.0 - f) - ln(1.0 - k) <= (k - f) / (1.0 - k)
    ensures f != k ==> ln(1.0 - f) - ln(1.0 - k) < (k - f) / (1.0 - k)
  {
    assert (1.0 - f) - (1.0 - k) == k - f;
    LnTangent(ln, 1.0 - f, 1.0 - k);
  }

  lemma Weigh(p: real, q: real, x: real, x': real, y: real, y': real, dx: real, dy: real, strict: bool)
    requires p > 0.0 && q > 0.0 && x - x' <= dx && y - y' <= dy && p * dx + q * dy <= 0.0
    requires strict ==> y - y' < dy
    ensures p * x + q * y <= p * x' + q * y'
    ensures strict ==> p * x + q * y < p * x' + q * y'
  {
    ShiftLe(p, x, x', dx);
    ShiftLe(q, y, y', dy);
    if strict {
      ShiftLt(q, y, y', dy);
    }
    Sum(p * x, p * x', p * dx, q * y, q * y', q * dy, strict);
  }

  lemma ShiftLe(a: real, x: real, y: real, d: real)
    requires a > 0.0 && x - y <= d
    ensures a * x <= a * y + a * d
  {}

  lemma ShiftLt(a: real, x: real, y: real, d: real)
    requires a > 0.0 && x - y < d
    ensures a * x < a * y + a * d
  {}

  lemma Sum(a: real, a': real, da: real, c: real, c': real, dc: real, strict: bool)
    requires a <= a' + da && c <= c' + dc && da + dc <= 0.0 && (strict ==> c < c' + dc)
    ensures a + c <= a' + c' && (strict ==> a + c < a' + c')
  {}
}

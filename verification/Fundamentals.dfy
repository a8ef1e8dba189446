/** The softmax fundamentals model (crates/agent-core/src/fundamentals.rs) and its port as an LLM
    tool (crates/rig-venice/src/tools.rs). `exp`, `ln` and `tanh` are parameters, known only by the
    laws below. */
module Fundamentals {
  import opened Prelude
  import opened Wagers

  datatype Config = Config(
    temperature: real, drawPrior: real, homeAdvantage: real,
    formWeight: real, xgWeight: real, rankWeight: real, injuryWeight: real, h2hWeight: real)

  const DEFAULT := Config(1.0, 0.26, 0.35, 0.30, 0.45, 0.20, 0.15, 0.15)

  datatype SideStats = SideStats(form: real, xg: real, rank: Option<real>, injuries: real)

  datatype MatchStats = MatchStats(home: SideStats, away: SideStats, h2h: real)

  datatype Distribution = Distribution(home: real, draw: real, away: real)

  const TINY: real := 0.000001

  // ---- The laws of the analytic functions --------------------------------

  ghost predicate AddLaw(exp: real -> real, x: real, y: real) { exp(x + y) == exp(x) * exp(y) }

  ghost predicate Increasing(exp: real -> real, x: real, y: real) { x < y ==> exp(x) < exp(y) }

  ghost predicate IsExp(exp: real -> real) {
    && (forall x: real :: exp(x) > 0.0)
    && (forall x: real, y: real :: AddLaw(exp, x, y))
    && (forall x: real, y: real :: Increasing(exp, x, y))
  }

  ghost predicate IsOdd(tanh: real -> real) {
    forall x: real :: tanh(-x) == -tanh(x)
  }

  // ---- The model ---------------------------------------------------------

  function Term(weight: real, x: real, y: real): real { weight * (x - y) }

  /** Ranks count, lower ones as better, if both are known. */
  function RankTerm(tanh: real -> real, weight: real, rank: Option<real>, opp: Option<real>): real {
    if rank.Some? && opp.Some? then weight * tanh((opp.value - rank.value) / 5.0) else 0.0
  }

  function SideScore(tanh: real -> real, side: SideStats, opp: SideStats, cfg: Config): real {
    Term(cfg.formWeight, side.form, opp.form)
    + Term(cfg.xgWeight, side.xg, opp.xg)
    + RankTerm(tanh, cfg.rankWeight, side.rank, opp.rank)
    + Term(cfg.injuryWeight, opp.injuries, side.injuries)
  }

  /** `side_score`, accumulating. */
  method ComputeSideScore(tanh: real -> real, side: SideStats, opp: SideStats, cfg: Config) returns (score: real)
    ensures score == SideScore(tanh, side, opp, cfg)
  {
    score := 0.0;
    score := score + cfg.formWeight * (side.form - opp.form);
    score := score + cfg.xgWeight * (side.xg - opp.xg);
    if side.rank.Some? && opp.rank.Some? {
      score := score + cfg.rankWeight * tanh((opp.rank.value - side.rank.value) / 5.0);
    }
    score := score + cfg.injuryWeight * (opp.injuries - side.injuries);
  }

  function HomeScore(tanh: real -> real, stats: MatchStats, cfg: Config): real {
    SideScore(tanh, stats.home, stats.away, cfg) + cfg.homeAdvantage + cfg.h2hWeight * stats.h2h
  }

  function AwayScore(tanh: real -> real, stats: MatchStats, cfg: Config): real {
    SideScore(tanh, stats.away, stats.home, cfg) - cfg.h2hWeight * stats.h2h
  }

  function DrawOdds(drawPrior: real): real {
    var clamped := Max(drawPrior, TINY);
    clamped / Max(1.0 - clamped, TINY)
  }

  function Temperature(cfg: Config): (t: real)
    ensures t > 0.0
  {
    if cfg.temperature > TINY then cfg.temperature else 1.0
  }

  /** The softmax, shifted by the largest logit, with the source's fallback for a vanishing total. */
  function Softmax(exp: real -> real, h: real, d: real, a: real): Distribution {
    var top := Max(Max(h, d), a);
    var eh, ed, ea := exp(h - top), exp(d - top), exp(a - top);
    var total := eh + ed + ea;
    if total <= 0.0 then Distribution(1.0 / 3.0, 1.0 / 3.0, 1.0 / 3.0)
    else Distribution(eh / total, ed / total, ea / total)
  }

  function DrawLogit(ln: real -> real, home: real, away: real, drawOdds: real): real {
    ln(drawOdds) - 0.5 * Abs(home - away)
  }

  /** The distribution that two win scores give. */
  function FromScores(exp: real -> real, ln: real -> real, home: real, away: real, cfg: Config): Distribution {
    var t := Temperature(cfg);
    Softmax(exp, home / t, DrawLogit(ln, home, away, DrawOdds(cfg.drawPrior)) / t, away / t)
  }

  function ModelDistribution(
      exp: real -> real, ln: real -> real, tanh: real -> real, stats: MatchStats, cfg: Config): Distribution
  {
    FromScores(exp, ln, HomeScore(tanh, stats, cfg), AwayScore(tanh, stats, cfg), cfg)
  }

  /** `model_distribution`, from the accumulated scores. */
  method ComputeDistribution(exp: real -> real, ln: real -> real, tanh: real -> real, stats: MatchStats, cfg: Config)
    returns (dist: Distribution)
    ensures dist == ModelDistribution(exp, ln, tanh, stats, cfg)
  {
    var homeScore := ComputeSideScore(tanh, stats.home, stats.away, cfg);
    var awayScore := ComputeSideScore(tanh, stats.away, stats.home, cfg);
    var home := homeScore + cfg.homeAdvantage + cfg.h2hWeight * stats.h2h;
    var away := awayScore - cfg.h2hWeight * stats.h2h;
    assert home == HomeScore(tanh, stats, cfg) && away == AwayScore(tanh, stats, cfg);
    dist := FromScores(exp, ln, home, away, cfg);
  }

  function BestSelection(dist: Distribution): Selection {
    if dist.home >= dist.draw && dist.home >= dist.away then Home
    else if dist.away >= dist.draw then Away
    else Draw
  }

  // ---- Softmax -----------------------------------------------------------

  lemma ExpZero(exp: real -> real)
    requires IsExp(exp)
    ensures exp(0.0) == 1.0
  {
    assert AddLaw(exp, 0.0, 0.0);
    var e, z := exp(0.0), 0.0 + 0.0;
    assert z == 0.0 && exp(z) == e * e;
    CancelSquare(e, e * e);
  }

  lemma CancelSquare(e: real, square: real)
    requires e > 0.0 && square == e * e && square == e
    ensures e == 1.0
  {
    assert e * (e - 1.0) == 0.0;
  }

  lemma ExpShift(exp: real -> real, x: real, m: real)
    requires IsExp(exp)
    ensures exp(x - m) * exp(m) == exp(x)
  {
    assert AddLaw(exp, x - m, m);
    assert x - m + m == x;
  }

  /** The share of the first of three positive weights. */
  function Share(x: real, y: real, z: real): real
    requires x > 0.0 && y > 0.0 && z > 0.0
  {
    x / (x + y + z)
  }

  lemma ShareIsProper(x: real, y: real, z: real)
    requires x > 0.0 && y > 0.0 && z > 0.0
    ensures 0.0 < Share(x, y, z) < 1.0
    ensures Share(x, y, z) * (x + y + z) == x
  {}

  lemma SharesSumToOne(x: real, y: real, z: real)
    requires x > 0.0 && y > 0.0 && z > 0.0
    ensures Share(x, y, z) + Share(y, x, z) + Share(z, y, x) == 1.0
  {
    var t, a, b, c := x + y + z, Share(x, y, z), Share(y, x, z), Share(z, y, x);
    ShareIsProper(x, y, z);
    ShareIsProper(y, x, z);
    ShareIsProper(z, y, x);
    DivAdd(x, y, z, t);
    assert y + x + z == t && z + y + x == t;
  }

  lemma DivAdd(x: real, y: real, z: real, t: real)
    requires t > 0.0 && t == x + y + z
    ensures x / t + y / t + z / t == 1.0
  {
    var a, b, c := x / t, y / t, z / t;
    assert a * t == x && b * t == y && c * t == z;
    assert t * (a + b + c - 1.0) == 0.0;
  }

  lemma ShareScales(x: real, y: real, z: real, c: real)
    requires x > 0.0 && y > 0.0 && z > 0.0 && c > 0.0
    ensures x * c > 0.0 && y * c > 0.0 && z * c > 0.0
    ensures Share(x * c, y * c, z * c) == Share(x, y, z)
  {
    ShareIsProper(x, y, z);
    var t, s := x + y + z, Share(x, y, z);
    assert x * c + y * c + z * c == t * c;
    assert s * (t * c) == x * c by { assert (s * t) * c == x * c; }
    DivIntro(x * c, t * c, s);
  }

  /** The shift changes nothing and the fallback is unreachable: the shifted total is at least one. */
  lemma SoftmaxIsUnshifted(exp: real -> real, h: real, d: real, a: real)
    requires IsExp(exp)
    ensures var top := Max(Max(h, d), a); exp(h - top) + exp(d - top) + exp(a - top) >= 1.0
    ensures var p := Softmax(exp, h, d, a);
            && p.home == Share(exp(h), exp(d), exp(a))
            && p.draw == Share(exp(d), exp(h), exp(a))
            && p.away == Share(exp(a), exp(d), exp(h))
  {
    var top := Max(Max(h, d), a);
    var eh, ed, ea, c := exp(h - top), exp(d - top), exp(a - top), exp(top);
    ExpShift(exp, h, top);
    ExpShift(exp, d, top);
    ExpShift(exp, a, top);
    ShiftedTotal(exp, h, d, a);
    ShiftedShare(eh, ed, ea, c, exp(h), exp(d), exp(a));
    ShiftedShare(ed, eh, ea, c, exp(d), exp(h), exp(a));
    ShiftedShare(ea, ed, eh, c, exp(a), exp(d), exp(h));
    var total := eh + ed + ea;
    assert ed + eh + ea == total && ea + ed + eh == total;
  }

  lemma ShiftedTotal(exp: real -> real, h: real, d: real, a: real)
    requires IsExp(exp)
    ensures var top := Max(Max(h, d), a); exp(h - top) + exp(d - top) + exp(a - top) >= 1.0
  {
    var top := Max(Max(h, d), a);
    ExpZero(exp);
    assert top - top == 0.0;
    assert exp(top - top) == 1.0;
  }

  lemma ShiftedShare(u: real, v: real, w: real, c: real, x: real, y: real, z: real)
    requires u > 0.0 && v > 0.0 && w > 0.0 && c > 0.0 && x == u * c && y == v * c && z == w * c
    ensures x > 0.0 && y > 0.0 && z > 0.0
    ensures Share(u, v, w) == Share(x, y, z)
  {
    ShareScales(u, v, w, c);
  }

  /** A proper distribution for every logit triple. */
  lemma SoftmaxIsDistribution(exp: real -> real, h: real, d: real, a: real)
    requires IsExp(exp)
    ensures var p := Softmax(exp, h, d, a);
            && p.home + p.draw + p.away == 1.0
            && 0.0 < p.home < 1.0 && 0.0 < p.draw < 1.0 && 0.0 < p.away < 1.0
  {
    SoftmaxIsUnshifted(exp, h, d, a);
    ShareIsProper(exp(h), exp(d), exp(a));
    ShareIsProper(exp(d), exp(h), exp(a));
    ShareIsProper(exp(a), exp(d), exp(h));
    SharesSumToOne(exp(h), exp(d), exp(a));
  }

  /** A share falls strictly when the competing weights grow relative to its own. */
  lemma ShareAntitone(x: real, y: real, z: real, x': real, y': real, z': real)
    requires x > 0.0 && y > 0.0 && z > 0.0 && x' > 0.0 && y' > 0.0 && z' > 0.0
    requires y / x + z / x < y' / x' + z' / x'
    ensures Share(x', y', z') < Share(x, y, z)
  {
    ShareByRatio(x, y, z);
    ShareByRatio(x', y', z');
    ReciprocalStrict(1.0 + (y / x + z / x), 1.0 + (y' / x' + z' / x'));
  }

  lemma ShareByRatio(x: real, y: real, z: real)
    requires x > 0.0 && y > 0.0 && z > 0.0
    ensures y / x > 0.0 && z / x > 0.0
    ensures Share(x, y, z) == 1.0 / (1.0 + (y / x + z / x))
  {
    var s, r := Share(x, y, z), 1.0 + (y / x + z / x);
    ShareIsProper(x, y, z);
    assert r * x == x + y + z;
    ReciprocalOf(s, r, x, x + y + z);
  }

  lemma ReciprocalOf(s: real, r: real, x: real, t: real)
    requires s * t == x && r * x == t && x > 0.0 && r > 0.0
    ensures s == 1.0 / r
  {
    EqualFactors(s, t, r * x);
    var k := s * r;
    assert k * x == s * (r * x);
    ScaleOrder(k, 1.0, x);
    ScaleOrder(1.0, k, x);
    DivIntro(1.0, r, s);
  }

  lemma EqualFactors(s: real, t: real, u: real)
    requires t == u
    ensures s * t == s * u
  {}

  lemma ReciprocalStrict(u: real, v: real)
    requires 0.0 < u < v
    ensures 1.0 / v < 1.0 / u
  {}

  lemma ExpRatio(exp: real -> real, x: real, y: real)
    requires IsExp(exp)
    ensures exp(y) / exp(x) == exp(y - x)
  {
    ExpShift(exp, y, x);
    DivIntro(exp(y), exp(x), exp(y - x));
  }

  /** The first component of a softmax falls strictly when the other logits rise relative to it. */
  lemma FirstFalls(exp: real -> real, x: real, y: real, z: real, x': real, y': real, z': real)
    requires IsExp(exp)
    requires y - x <= y' - x' && z - x <= z' - x' && (y - x < y' - x' || z - x < z' - x')
    ensures Share(exp(x'), exp(y'), exp(z')) < Share(exp(x), exp(y), exp(z))
  {
    ExpRatio(exp, x, y);
    ExpRatio(exp, x, z);
    ExpRatio(exp, x', y');
    ExpRatio(exp, x', z');
    assert Increasing(exp, y - x, y' - x') && Increasing(exp, z - x, z' - x');
    ShareAntitone(exp(x), exp(y), exp(z), exp(x'), exp(y'), exp(z'));
  }

  // ---- What antisymmetry buys --------------------------------------------

  lemma SideScoreIsAntisymmetric(tanh: real -> real, s: SideStats, o: SideStats, cfg: Config)
    requires IsOdd(tanh)
    ensures SideScore(tanh, s, o, cfg) == -SideScore(tanh, o, s, cfg)
  {
    TermFlips(cfg.formWeight, s.form, o.form);
    TermFlips(cfg.xgWeight, s.xg, o.xg);
    TermFlips(cfg.injuryWeight, o.injuries, s.injuries);
    RankTermFlips(tanh, cfg.rankWeight, s.rank, o.rank);
  }

  lemma TermFlips(weight: real, x: real, y: real)
    ensures Term(weight, x, y) == -Term(weight, y, x)
  {}

  lemma RankTermFlips(tanh: real -> real, weight: real, rank: Option<real>, opp: Option<real>)
    requires IsOdd(tanh)
    ensures RankTerm(tanh, weight, rank, opp) == -RankTerm(tanh, weight, opp, rank)
  {
    if rank.Some? && opp.Some? {
      var x, y := (opp.value - rank.value) / 5.0, (rank.value - opp.value) / 5.0;
      assert y == -x;
      assert tanh(-x) == -tanh(x);
      Negate(weight, tanh(x), tanh(y));
    }
  }

  lemma Negate(w: real, x: real, y: real)
    requires x == -y
    ensures w * x == -(w * y)
  {}

  /** Half the gap between the home and away scores: the only thing the match contributes. */
  function HalfGap(tanh: real -> real, stats: MatchStats, cfg: Config): real {
    (HomeScore(tanh, stats, cfg) - AwayScore(tanh, stats, cfg)) / 2.0
  }

  lemma ScoresFromHalfGap(ln: real -> real, tanh: real -> real, stats: MatchStats, cfg: Config)
    requires IsOdd(tanh)
    ensures var y, home, away := HalfGap(tanh, stats, cfg), HomeScore(tanh, stats, cfg), AwayScore(tanh, stats, cfg);
            && home == cfg.homeAdvantage / 2.0 + y
            && away == cfg.homeAdvantage / 2.0 - y
            && DrawLogit(ln, home, away, DrawOdds(cfg.drawPrior)) == ln(DrawOdds(cfg.drawPrior)) - Abs(y)
  {
    SideScoreIsAntisymmetric(tanh, stats.home, stats.away, cfg);
  }

  lemma ScaledGap(x: real, y: real, x': real, y': real, t: real)
    requires t > 0.0
    ensures y - x <= y' - x' ==> y / t - x / t <= y' / t - x' / t
    ensures y - x < y' - x' ==> y / t - x / t < y' / t - x' / t
  {
    var g, g' := (y - x) / t, (y' - x') / t;
    assert g == y / t - x / t && g' == y' / t - x' / t;
  }

  /** The shape of the model, for every weight setting and temperature: as the gap grows the home
      probability rises and the away probability falls; the draw depends on the size of the gap
      alone and is the smaller the larger that is, so it peaks at a balanced match. */
  lemma Shape(
      exp: real -> real, ln: real -> real, tanh: real -> real, m: MatchStats, m': MatchStats, cfg: Config)
    requires IsExp(exp) && IsOdd(tanh)
    ensures var y, y' := HalfGap(tanh, m, cfg), HalfGap(tanh, m', cfg);
            var p, p' := ModelDistribution(exp, ln, tanh, m, cfg), ModelDistribution(exp, ln, tanh, m', cfg);
            && (y < y' ==> p.home < p'.home && p.away > p'.away)
            && (Abs(y) == Abs(y') ==> p.draw == p'.draw)
            && (Abs(y) < Abs(y') ==> p.draw > p'.draw)
  {
    var c, l, t := cfg.homeAdvantage / 2.0, ln(DrawOdds(cfg.drawPrior)), Temperature(cfg);
    ModelShares(exp, ln, tanh, m, cfg);
    ModelShares(exp, ln, tanh, m', cfg);
    HomeRisesAwayFalls(exp, HalfGap(tanh, m, cfg), HalfGap(tanh, m', cfg), c, l, t);
    DrawFalls(exp, HalfGap(tanh, m, cfg), HalfGap(tanh, m', cfg), c, l, t);
  }

  // ---- What the statistics do --------------------------------------------

  ghost predicate IsIncreasing(f: real -> real) {
    forall x: real, y: real :: Increasing(f, x, y)
  }

  /** The second match is better for the home side: it is likelier to win, and the away side less likely. */
  ghost predicate FavoursHome(
      exp: real -> real, ln: real -> real, tanh: real -> real, m: MatchStats, m': MatchStats, cfg: Config)
  {
    var p, p' := ModelDistribution(exp, ln, tanh, m, cfg), ModelDistribution(exp, ln, tanh, m', cfg);
    p.home < p'.home && p.away > p'.away
  }

  lemma WiderGapFavoursHome(
      exp: real -> real, ln: real -> real, tanh: real -> real, m: MatchStats, m': MatchStats, cfg: Config)
    requires IsExp(exp) && IsOdd(tanh) && HalfGap(tanh, m, cfg) < HalfGap(tanh, m', cfg)
    ensures FavoursHome(exp, ln, tanh, m, m', cfg)
  {
    Shape(exp, ln, tanh, m, m', cfg);
  }

  /** The half gap, from the statistics alone. */
  lemma HalfGapInTerms(tanh: real -> real, m: MatchStats, cfg: Config)
    requires IsOdd(tanh)
    ensures HalfGap(tanh, m, cfg) ==
      Term(cfg.formWeight, m.home.form, m.away.form)
      + Term(cfg.xgWeight, m.home.xg, m.away.xg)
      + RankTerm(tanh, cfg.rankWeight, m.home.rank, m.away.rank)
      + Term(cfg.injuryWeight, m.away.injuries, m.home.injuries)
      + Term(cfg.h2hWeight, m.h2h, 0.0) + cfg.homeAdvantage / 2.0
  {
    SideScoreIsAntisymmetric(tanh, m.home, m.away, cfg);
    assert Term(cfg.h2hWeight, m.h2h, 0.0) == cfg.h2hWeight * m.h2h;
  }

  lemma TermOrder(weight: real, x: real, y: real, x': real, y': real)
    requires weight > 0.0 && x - y < x' - y'
    ensures Term(weight, x, y) < Term(weight, x', y')
  {
    MulLt(weight, x - y, x' - y');
  }

  /** Better recent form helps, at home as well as away. */
  lemma FormHelps(exp: real -> real, ln: real -> real, tanh: real -> real, m: MatchStats, cfg: Config, form: real)
    requires IsExp(exp) && IsOdd(tanh) && cfg.formWeight > 0.0
    ensures form > m.home.form ==> FavoursHome(exp, ln, tanh, m, m.(home := m.home.(form := form)), cfg)
    ensures form > m.away.form ==> FavoursHome(exp, ln, tanh, m.(away := m.away.(form := form)), m, cfg)
  {
    var atHome, away := m.(home := m.home.(form := form)), m.(away := m.away.(form := form));
    HalfGapInTerms(tanh, m, cfg);
    if form > m.home.form {
      HalfGapInTerms(tanh, atHome, cfg);
      TermOrder(cfg.formWeight, m.home.form, m.away.form, form, m.away.form);
      WiderGapFavoursHome(exp, ln, tanh, m, atHome, cfg);
    }
    if form > m.away.form {
      HalfGapInTerms(tanh, away, cfg);
      TermOrder(cfg.formWeight, m.home.form, form, m.home.form, m.away.form);
      WiderGapFavoursHome(exp, ln, tanh, away, m, cfg);
    }
  }

  /** So do more expected goals. */
  lemma ExpectedGoalsHelp(exp: real -> real, ln: real -> real, tanh: real -> real, m: MatchStats, cfg: Config, xg: real)
    requires IsExp(exp) && IsOdd(tanh) && cfg.xgWeight > 0.0
    ensures xg > m.home.xg ==> FavoursHome(exp, ln, tanh, m, m.(home := m.home.(xg := xg)), cfg)
    ensures xg > m.away.xg ==> FavoursHome(exp, ln, tanh, m.(away := m.away.(xg := xg)), m, cfg)
  {
    var atHome, away := m.(home := m.home.(xg := xg)), m.(away := m.away.(xg := xg));
    HalfGapInTerms(tanh, m, cfg);
    if xg > m.home.xg {
      HalfGapInTerms(tanh, atHome, cfg);
      TermOrder(cfg.xgWeight, m.home.xg, m.away.xg, xg, m.away.xg);
      WiderGapFavoursHome(exp, ln, tanh, m, atHome, cfg);
    }
    if xg > m.away.xg {
      HalfGapInTerms(tanh, away, cfg);
      TermOrder(cfg.xgWeight, m.home.xg, xg, m.home.xg, m.away.xg);
      WiderGapFavoursHome(exp, ln, tanh, away, m, cfg);
    }
  }

  /** More injuries hurt. */
  lemma InjuriesHurt(exp: real -> real, ln: real -> real, tanh: real -> real, m: MatchStats, cfg: Config, n: real)
    requires IsExp(exp) && IsOdd(tanh) && cfg.injuryWeight > 0.0
    ensures n > m.home.injuries ==> FavoursHome(exp, ln, tanh, m.(home := m.home.(injuries := n)), m, cfg)
    ensures n > m.away.injuries ==> FavoursHome(exp, ln, tanh, m, m.(away := m.away.(injuries := n)), cfg)
  {
    var atHome, away := m.(home := m.home.(injuries := n)), m.(away := m.away.(injuries := n));
    HalfGapInTerms(tanh, m, cfg);
    if n > m.home.injuries {
      HalfGapInTerms(tanh, atHome, cfg);
      TermOrder(cfg.injuryWeight, m.away.injuries, n, m.away.injuries, m.home.injuries);
      WiderGapFavoursHome(exp, ln, tanh, atHome, m, cfg);
    }
    if n > m.away.injuries {
      HalfGapInTerms(tanh, away, cfg);
      TermOrder(cfg.injuryWeight, m.away.injuries, m.home.injuries, n, m.home.injuries);
      WiderGapFavoursHome(exp, ln, tanh, m, away, cfg);
    }
  }

  /** A better rank, which is a lower number, helps if both ranks are known, and does not count otherwise. */
  lemma RankHelps(exp: real -> real, ln: real -> real, tanh: real -> real, m: MatchStats, cfg: Config, rank: real)
    requires IsExp(exp) && IsOdd(tanh) && IsIncreasing(tanh) && cfg.rankWeight > 0.0
    requires m.home.rank.Some? && m.away.rank.Some?
    ensures rank < m.home.rank.value ==> FavoursHome(exp, ln, tanh, m, m.(home := m.home.(rank := Some(rank))), cfg)
    ensures rank < m.away.rank.value ==> FavoursHome(exp, ln, tanh, m.(away := m.away.(rank := Some(rank))), m, cfg)
  {
    var atHome, away := m.(home := m.home.(rank := Some(rank))), m.(away := m.away.(rank := Some(rank)));
    HalfGapInTerms(tanh, m, cfg);
    if rank < m.home.rank.value {
      HalfGapInTerms(tanh, atHome, cfg);
      RankTermOrder(tanh, cfg.rankWeight, m.home.rank, m.away.rank, Some(rank), m.away.rank);
      WiderGapFavoursHome(exp, ln, tanh, m, atHome, cfg);
    }
    if rank < m.away.rank.value {
      HalfGapInTerms(tanh, away, cfg);
      RankTermOrder(tanh, cfg.rankWeight, m.home.rank, Some(rank), m.home.rank, m.away.rank);
      WiderGapFavoursHome(exp, ln, tanh, away, m, cfg);
    }
  }

  lemma RankTermOrder(tanh: real -> real, weight: real, rank: Option<real>, opp: Option<real>, rank': Option<real>,
      opp': Option<real>)
    requires IsIncreasing(tanh) && weight > 0.0 && rank.Some? && opp.Some? && rank'.Some? && opp'.Some?
    requires opp.value - rank.value < opp'.value - rank'.value
    ensures RankTerm(tanh, weight, rank, opp) < RankTerm(tanh, weight, rank', opp')
  {
    var x, y := (opp.value - rank.value) / 5.0, (opp'.value - rank'.value) / 5.0;
    assert Increasing(tanh, x, y);
    MulLt(weight, tanh(x), tanh(y));
  }

  lemma UnknownRankDoesNotCount(
      exp: real -> real, ln: real -> real, tanh: real -> real, m: MatchStats, cfg: Config, rank: Option<real>)
    ensures var atHome, away := m.(home := m.home.(rank := rank)), m.(away := m.away.(rank := rank));
            && (m.away.rank.None? ==>
                  ModelDistribution(exp, ln, tanh, atHome, cfg) == ModelDistribution(exp, ln, tanh, m, cfg))
            && (m.home.rank.None? ==>
                  ModelDistribution(exp, ln, tanh, away, cfg) == ModelDistribution(exp, ln, tanh, m, cfg))
  {
    var atHome, away := m.(home := m.home.(rank := rank)), m.(away := m.away.(rank := rank));
    if m.away.rank.None? {
      SameTerms(tanh, m.home, m.away, atHome.home, m.away, cfg);
      SameTerms(tanh, m.away, m.home, m.away, atHome.home, cfg);
      SameScores(exp, ln, tanh, m, atHome, cfg);
    }
    if m.home.rank.None? {
      SameTerms(tanh, m.home, m.away, m.home, away.away, cfg);
      SameTerms(tanh, m.away, m.home, away.away, m.home, cfg);
      SameScores(exp, ln, tanh, m, away, cfg);
    }
  }

  lemma SameScores(
      exp: real -> real, ln: real -> real, tanh: real -> real, m: MatchStats, m': MatchStats, cfg: Config)
    requires SideScore(tanh, m.home, m.away, cfg) == SideScore(tanh, m'.home, m'.away, cfg)
    requires SideScore(tanh, m.away, m.home, cfg) == SideScore(tanh, m'.away, m'.home, cfg)
    requires m.h2h == m'.h2h
    ensures ModelDistribution(exp, ln, tanh, m, cfg) == ModelDistribution(exp, ln, tanh, m', cfg)
  {
    assert HomeScore(tanh, m, cfg) == HomeScore(tanh, m', cfg);
    assert AwayScore(tanh, m, cfg) == AwayScore(tanh, m', cfg);
  }

  lemma SameTerms(tanh: real -> real, s: SideStats, o: SideStats, s': SideStats, o': SideStats, cfg: Config)
    requires s' == s.(rank := s'.rank) && o' == o.(rank := o'.rank)
    requires (s.rank.None? || o.rank.None?) && (s'.rank.None? || o'.rank.None?)
    ensures SideScore(tanh, s, o, cfg) == SideScore(tanh, s', o', cfg)
  {}

  /** A better record against this opponent helps. */
  lemma HeadToHeadHelps(exp: real -> real, ln: real -> real, tanh: real -> real, m: MatchStats, cfg: Config, h2h: real)
    requires IsExp(exp) && IsOdd(tanh) && cfg.h2hWeight > 0.0 && h2h > m.h2h
    ensures FavoursHome(exp, ln, tanh, m, m.(h2h := h2h), cfg)
  {
    HalfGapInTerms(tanh, m, cfg);
    HalfGapInTerms(tanh, m.(h2h := h2h), cfg);
    TermOrder(cfg.h2hWeight, m.h2h, 0.0, h2h, 0.0);
    WiderGapFavoursHome(exp, ln, tanh, m, m.(h2h := h2h), cfg);
  }

  /** The odds of home against away, in full: a ratio of one at level scores, and a factor of `exp` for each
      temperature of the gap that the statistics and the home advantage make. */
  lemma HomeAwayOdds(exp: real -> real, ln: real -> real, tanh: real -> real, m: MatchStats, cfg: Config)
    requires IsExp(exp) && IsOdd(tanh)
    ensures var gap :=
              2.0 * (cfg.formWeight * (m.home.form - m.away.form)
                     + cfg.xgWeight * (m.home.xg - m.away.xg)
                     + (if m.home.rank.Some? && m.away.rank.Some?
                        then cfg.rankWeight * tanh((m.away.rank.value - m.home.rank.value) / 5.0) else 0.0)
                     + cfg.injuryWeight * (m.away.injuries - m.home.injuries)
                     + cfg.h2hWeight * m.h2h)
              + cfg.homeAdvantage;
            var t := if cfg.temperature > 0.000001 then cfg.temperature else 1.0;
            var p := ModelDistribution(exp, ln, tanh, m, cfg);
            p.home == p.away * exp(gap / t)
  {
    GapInStatistics(tanh, m, cfg);
    OddsOfGap(exp, ln, tanh, m, cfg, HomeScore(tanh, m, cfg) - AwayScore(tanh, m, cfg), Temperature(cfg));
  }

  /** With the shipped weights. */
  lemma DefaultHomeAwayOdds(exp: real -> real, ln: real -> real, tanh: real -> real, m: MatchStats)
    requires IsExp(exp) && IsOdd(tanh) && m.home.rank.Some? && m.away.rank.Some?
    ensures var p := ModelDistribution(exp, ln, tanh, m, DEFAULT);
            p.home == p.away * exp(
              (2.0 * (0.30 * (m.home.form - m.away.form) + 0.45 * (m.home.xg - m.away.xg)
                     + 0.20 * tanh((m.away.rank.value - m.home.rank.value) / 5.0)
                     + 0.15 * (m.away.injuries - m.home.injuries) + 0.15 * m.h2h) + 0.35) / 1.0)
    ensures DrawOdds(DEFAULT.drawPrior) == 0.26 / 0.74
  {
    HomeAwayOdds(exp, ln, tanh, m, DEFAULT);
  }

  lemma GapInStatistics(tanh: real -> real, m: MatchStats, cfg: Config)
    requires IsOdd(tanh)
    ensures HomeScore(tanh, m, cfg) - AwayScore(tanh, m, cfg) ==
      2.0 * (cfg.formWeight * (m.home.form - m.away.form)
             + cfg.xgWeight * (m.home.xg - m.away.xg)
             + (if m.home.rank.Some? && m.away.rank.Some?
                then cfg.rankWeight * tanh((m.away.rank.value - m.home.rank.value) / 5.0) else 0.0)
             + cfg.injuryWeight * (m.away.injuries - m.home.injuries)
             + cfg.h2hWeight * m.h2h)
      + cfg.homeAdvantage
  {
    HalfGapInTerms(tanh, m, cfg);
    assert Term(cfg.h2hWeight, m.h2h, 0.0) == cfg.h2hWeight * m.h2h;
  }

  lemma OddsOfGap(
      exp: real -> real, ln: real -> real, tanh: real -> real, m: MatchStats, cfg: Config, gap: real, t: real)
    requires IsExp(exp) && gap == HomeScore(tanh, m, cfg) - AwayScore(tanh, m, cfg) && t == Temperature(cfg)
    ensures var p := ModelDistribution(exp, ln, tanh, m, cfg); p.home == p.away * exp(gap / t)
  {
    var home, away := HomeScore(tanh, m, cfg), AwayScore(tanh, m, cfg);
    GapOdds(exp, home, DrawLogit(ln, home, away, DrawOdds(cfg.drawPrior)), away, t, gap);
  }

  lemma GapOdds(exp: real -> real, home: real, draw: real, away: real, t: real, gap: real)
    requires IsExp(exp) && t > 0.0 && gap == home - away
    ensures var p := Softmax(exp, home / t, draw / t, away / t); p.home == p.away * exp(gap / t)
  {
    DivDifference(home, away, t, gap);
    RatioOfShares(exp, home / t, draw / t, away / t, gap / t);
  }

  lemma DivDifference(x: real, y: real, t: real, gap: real)
    requires t > 0.0 && gap == x - y
    ensures gap / t == x / t - y / t
  {}

  lemma RatioOfShares(exp: real -> real, h: real, d: real, a: real, gap: real)
    requires IsExp(exp) && gap == h - a
    ensures var p := Softmax(exp, h, d, a); p.home == p.away * exp(gap)
  {
    SoftmaxIsUnshifted(exp, h, d, a);
    ShareRatio(exp, h, d, a);
  }

  lemma ShareRatio(exp: real -> real, h: real, d: real, a: real)
    requires IsExp(exp)
    ensures Share(exp(h), exp(d), exp(a)) == Share(exp(a), exp(d), exp(h)) * exp(h - a)
  {
    var x, y, z, t, s := exp(h), exp(d), exp(a), exp(h) + exp(d) + exp(a), Share(exp(a), exp(d), exp(h));
    ExpShift(exp, h, a);
    ShareIsProper(z, y, x);
    assert z + y + x == t && s * t == z;
    assert exp(h - a) * z == x;
    RatioTimes(s, exp(h - a), t, z, x);
    DivIntro(x, t, s * exp(h - a));
  }

  lemma RatioTimes(s: real, e: real, t: real, z: real, x: real)
    requires s * t == z && e * z == x
    ensures x == s * e * t
  {
    assert s * e * t == e * (s * t);
  }

  /** Without any statistics to tell the sides apart, only the home advantage does. */
  lemma LevelMatchFavoursHome(
      exp: real -> real, ln: real -> real, tanh: real -> real, side: SideStats, cfg: Config)
    requires IsExp(exp) && IsOdd(tanh)
    ensures var p := ModelDistribution(exp, ln, tanh, MatchStats(side, side, 0.0), cfg);
            (p.home > p.away <==> cfg.homeAdvantage > 0.0) && (p.home == p.away <==> cfg.homeAdvantage == 0.0)
  {
    var m := MatchStats(side, side, 0.0);
    var home, away, t := HomeScore(tanh, m, cfg), AwayScore(tanh, m, cfg), Temperature(cfg);
    var draw := DrawLogit(ln, home, away, DrawOdds(cfg.drawPrior));
    SideScoreIsAntisymmetric(tanh, side, side, cfg);
    assert home - away == cfg.homeAdvantage;
    SoftmaxOrderStrict(exp, home / t, draw / t, away / t);
    DivOrder(home, away, t);
    DivOrder(away, home, t);
  }

  lemma SoftmaxOrderStrict(exp: real -> real, h: real, d: real, a: real)
    requires IsExp(exp)
    ensures var p := Softmax(exp, h, d, a); (p.home >= p.away <==> h >= a) && (p.away >= p.home <==> a >= h)
  {
    SoftmaxIsUnshifted(exp, h, d, a);
    assert Increasing(exp, h, a) && Increasing(exp, a, h);
    ShareOrder(exp(h), exp(a), exp(d));
    ShareOrder(exp(a), exp(h), exp(d));
    ShareSwap(exp(h), exp(a), exp(d));
    ShareSwap(exp(a), exp(h), exp(d));
  }

  /** For a usable prior the draw enters with its odds. */
  lemma DrawPriorIsOdds(drawPrior: real)
    requires 0.000001 <= drawPrior <= 0.999999
    ensures DrawOdds(drawPrior) == drawPrior / (1.0 - drawPrior) == ToolDrawOdds(drawPrior)
  {}

  /** The pick has the largest probability; of equal ones home comes before away, and away before draw. */
  lemma PickIsLargest(dist: Distribution)
    ensures BestSelection(dist) == Home <==> dist.home >= dist.draw && dist.home >= dist.away
    ensures BestSelection(dist) == Away <==> dist.away > dist.home && dist.away >= dist.draw
    ensures BestSelection(dist) == Draw <==> dist.draw > dist.home && dist.draw > dist.away
  {}

  // The three probabilities in terms of the half gap `y`, half the home advantage `c`, the logarithm
  // `l` of the draw odds and the temperature `t`.

  function HomeShare(exp: real -> real, y: real, c: real, l: real, t: real): real
    requires t > 0.0 && exp((c + y) / t) > 0.0 && exp((l - Abs(y)) / t) > 0.0 && exp((c - y) / t) > 0.0
  {
    Share(exp((c + y) / t), exp((l - Abs(y)) / t), exp((c - y) / t))
  }

  function DrawShare(exp: real -> real, y: real, c: real, l: real, t: real): real
    requires t > 0.0 && exp((c + y) / t) > 0.0 && exp((l - Abs(y)) / t) > 0.0 && exp((c - y) / t) > 0.0
  {
    Share(exp((l - Abs(y)) / t), exp((c + y) / t), exp((c - y) / t))
  }

  function AwayShare(exp: real -> real, y: real, c: real, l: real, t: real): real
    requires t > 0.0 && exp((c + y) / t) > 0.0 && exp((l - Abs(y)) / t) > 0.0 && exp((c - y) / t) > 0.0
  {
    Share(exp((c - y) / t), exp((l - Abs(y)) / t), exp((c + y) / t))
  }

  lemma ModelShares(exp: real -> real, ln: real -> real, tanh: real -> real, m: MatchStats, cfg: Config)
    requires IsExp(exp) && IsOdd(tanh)
    ensures var y, c := HalfGap(tanh, m, cfg), cfg.homeAdvantage / 2.0;
            var l, t := ln(DrawOdds(cfg.drawPrior)), Temperature(cfg);
            var p := ModelDistribution(exp, ln, tanh, m, cfg);
            && p.home == HomeShare(exp, y, c, l, t)
            && p.draw == DrawShare(exp, y, c, l, t)
            && p.away == AwayShare(exp, y, c, l, t)
  {
    ScoresFromHalfGap(ln, tanh, m, cfg);
    var y, c, l, t := HalfGap(tanh, m, cfg), cfg.homeAdvantage / 2.0, ln(DrawOdds(cfg.drawPrior)), Temperature(cfg);
    SoftmaxIsUnshifted(exp, (c + y) / t, (l - Abs(y)) / t, (c - y) / t);
  }

  lemma HomeRisesAwayFalls(exp: real -> real, y: real, y': real, c: real, l: real, t: real)
    requires IsExp(exp) && t > 0.0
    ensures y < y' ==>
      && HomeShare(exp, y, c, l, t) < HomeShare(exp, y', c, l, t)
      && AwayShare(exp, y, c, l, t) > AwayShare(exp, y', c, l, t)
  {
    if y < y' {
      ScaledFalls(exp, c + y', l - Abs(y'), c - y', c + y, l - Abs(y), c - y, t);
      ScaledFalls(exp, c - y, l - Abs(y), c + y, c - y', l - Abs(y'), c + y', t);
    }
  }

  /** `FirstFalls` for logits before they are divided by the temperature. */
  lemma ScaledFalls(exp: real -> real, x: real, y: real, z: real, x': real, y': real, z': real, t: real)
    requires IsExp(exp) && t > 0.0
    requires y - x <= y' - x' && z - x <= z' - x' && (y - x < y' - x' || z - x < z' - x')
    ensures Share(exp(x' / t), exp(y' / t), exp(z' / t)) < Share(exp(x / t), exp(y / t), exp(z / t))
  {
    ScaledGap(x, y, x', y', t);
    ScaledGap(x, z, x', z', t);
    FirstFalls(exp, x / t, y / t, z / t, x' / t, y' / t, z' / t);
  }

  /** The draw competes with both rivals at once; opposite gaps swap the rivals. */
  lemma DrawFalls(exp: real -> real, y: real, y': real, c: real, l: real, t: real)
    requires IsExp(exp) && t > 0.0
    ensures Abs(y) == Abs(y') ==> DrawShare(exp, y, c, l, t) == DrawShare(exp, y', c, l, t)
    ensures Abs(y) < Abs(y') ==> DrawShare(exp, y, c, l, t) > DrawShare(exp, y', c, l, t)
  {
    ShareSwap(exp((l - Abs(y')) / t), exp((c + y') / t), exp((c - y') / t));
    if Abs(y) < Abs(y') {
      if (y >= 0.0) == (y' >= 0.0) {
        DrawFallsSameSide(exp, y, y', c, l, t);
      } else {
        DrawFallsSameSide(exp, y, -y', c, l, t);
        assert c + -y' == c - y' && c - -y' == c + y' && Abs(-y') == Abs(y');
      }
    } else if y == -y' {
      assert c + y == c - y' && c - y == c + y';
    }
  }

  lemma DrawFallsSameSide(exp: real -> real, y: real, y': real, c: real, l: real, t: real)
    requires IsExp(exp) && t > 0.0 && Abs(y) < Abs(y') && (0.0 <= y <= y' || y' <= y <= 0.0)
    ensures DrawShare(exp, y, c, l, t) > DrawShare(exp, y', c, l, t)
  {
    ScaledFalls(exp, l - Abs(y), c + y, c - y, l - Abs(y'), c + y', c - y', t);
  }

  lemma ShareSwap(x: real, y: real, z: real)
    requires x > 0.0 && y > 0.0 && z > 0.0
    ensures Share(x, y, z) == Share(x, z, y)
  {
    assert x + y + z == x + z + y;
  }

  lemma ShareOrder(x: real, y: real, z: real)
    requires x > 0.0 && y > 0.0 && z > 0.0
    ensures Share(x, y, z) >= Share(y, x, z) <==> x >= y
  {
    assert y + x + z == x + y + z;
    DivOrder(x, y, x + y + z);
  }

  /** The softmax orders its outcomes as the logits do. */
  lemma SoftmaxOrder(exp: real -> real, h: real, d: real, a: real)
    requires IsExp(exp)
    ensures var p := Softmax(exp, h, d, a);
            (p.home >= p.draw <==> h >= d) && (p.home >= p.away <==> h >= a) && (p.away >= p.draw <==> a >= d)
  {
    SoftmaxIsUnshifted(exp, h, d, a);
    assert Increasing(exp, h, d) && Increasing(exp, d, h) && Increasing(exp, h, a)
        && Increasing(exp, a, h) && Increasing(exp, a, d) && Increasing(exp, d, a);
    ShareOrder(exp(h), exp(d), exp(a));
    ShareOrder(exp(h), exp(a), exp(d));
    ShareOrder(exp(a), exp(d), exp(h));
  }

  lemma DivOrder(x: real, y: real, t: real)
    requires t > 0.0
    ensures x / t >= y / t <==> x >= y
  {
    var u, v := x / t, y / t;
    ScaleOrder(u, v, t);
    assert u * t == x && v * t == y;
  }

  /** The draw is the top pick exactly when the match is balanced enough for the draw prior to
      outweigh half the home advantage. */
  lemma DrawPickedIff(exp: real -> real, ln: real -> real, tanh: real -> real, m: MatchStats, cfg: Config)
    requires IsExp(exp) && IsOdd(tanh)
    ensures BestSelection(ModelDistribution(exp, ln, tanh, m, cfg)) == Draw <==>
      2.0 * Abs(HalfGap(tanh, m, cfg)) < ln(DrawOdds(cfg.drawPrior)) - cfg.homeAdvantage / 2.0
  {
    ScoresFromHalfGap(ln, tanh, m, cfg);
    var home, away, t := HomeScore(tanh, m, cfg), AwayScore(tanh, m, cfg), Temperature(cfg);
    var draw := DrawLogit(ln, home, away, DrawOdds(cfg.drawPrior));
    SoftmaxOrder(exp, home / t, draw / t, away / t);
    DivOrder(home, draw, t);
    DivOrder(home, away, t);
    DivOrder(away, draw, t);
  }

  /** Hence with a draw prior of at most one half and no away advantage the draw is never picked,
      whatever the match; the shipped defaults qualify. */
  lemma DrawNeverPicked(exp: real -> real, ln: real -> real, tanh: real -> real, m: MatchStats, cfg: Config)
    requires IsExp(exp) && IsLn(ln) && IsOdd(tanh)
    requires cfg.drawPrior <= 0.5 && cfg.homeAdvantage >= 0.0
    ensures BestSelection(ModelDistribution(exp, ln, tanh, m, cfg)) != Draw
  {
    DrawPickedIff(exp, ln, tanh, m, cfg);
    var c := Max(cfg.drawPrior, TINY);
    ProperFraction(c, Max(1.0 - c, TINY));
    assert BelowTangent(ln, DrawOdds(cfg.drawPrior));
  }

  lemma DrawNeverPickedByDefault(exp: real -> real, ln: real -> real, tanh: real -> real, m: MatchStats)
    requires IsExp(exp) && IsLn(ln) && IsOdd(tanh)
    ensures BestSelection(ModelDistribution(exp, ln, tanh, m, DEFAULT)) != Draw
  {
    DrawNeverPicked(exp, ln, tanh, m, DEFAULT);
  }

  lemma ProperFraction(x: real, y: real)
    requires 0.0 < x <= y
    ensures 0.0 < x / y <= 1.0
  {}

  // ---- The tool port -----------------------------------------------------

  /** `ComputeModelProbability::call`: it clamps the draw prior on both sides instead of flooring the
      denominator, folds the maximum from the left, and tests the total the other way round. */
  function ToolDistribution(
      exp: real -> real, ln: real -> real, tanh: real -> real, stats: MatchStats, cfg: Config): Distribution
  {
    var home, away := HomeScore(tanh, stats, cfg), AwayScore(tanh, stats, cfg);
    var draw := ln(ToolDrawOdds(cfg.drawPrior)) - 0.5 * Abs(home - away);
    var t := if cfg.temperature > TINY then cfg.temperature else 1.0;
    ToolSoftmax(exp, [home / t, draw / t, away / t])
  }

  /** Its softmax, over a vector of three. */
  function ToolSoftmax(exp: real -> real, scaled: seq<real>): Distribution
    requires |scaled| == 3
  {
    var m := Max(Max(scaled[0], scaled[1]), scaled[2]);
    var e0, e1, e2 := exp(scaled[0] - m), exp(scaled[1] - m), exp(scaled[2] - m);
    var total := e0 + e1 + e2;
    if total > 0.0 then Distribution(e0 / total, e1 / total, e2 / total)
    else Distribution(1.0 / 3.0, 1.0 / 3.0, 1.0 / 3.0)
  }

  lemma ToolSoftmaxIsSoftmax(exp: real -> real, h: real, d: real, a: real)
    ensures ToolSoftmax(exp, [h, d, a]) == Softmax(exp, h, d, a)
  {}

  lemma LnIsIncreasing(ln: real -> real, x: real, y: real)
    requires IsLn(ln) && 0.0 < x < y
    ensures ln(x) < ln(y)
  {
    LnTangent(ln, x, y);
    DivIntro(x - y, y, (x - y) / y);
    NegativeQuotient(x - y, y);
  }

  lemma NegativeQuotient(x: real, y: real)
    requires x < 0.0 && y > 0.0
    ensures x / y < 0.0
  {}

  /** Raising only the draw logit raises the draw probability. */
  lemma DrawLogitMatters(exp: real -> real, h: real, d: real, d': real, a: real)
    requires IsExp(exp) && d < d'
    ensures Softmax(exp, h, d, a).draw < Softmax(exp, h, d', a).draw
  {
    SoftmaxIsUnshifted(exp, h, d, a);
    SoftmaxIsUnshifted(exp, h, d', a);
    FirstFalls(exp, d', h, a, d, h, a);
  }

  /** The two ports agree exactly when the draw prior leaves the tool's upper clamp alone: above it
      they differ on every match. */
  lemma PortsAgreeIff(exp: real -> real, ln: real -> real, tanh: real -> real, m: MatchStats, cfg: Config)
    requires IsExp(exp) && IsLn(ln)
    ensures ToolDistribution(exp, ln, tanh, m, cfg) == ModelDistribution(exp, ln, tanh, m, cfg) <==>
      cfg.drawPrior <= 1.0 - TINY
  {
    var home, away, t := HomeScore(tanh, m, cfg), AwayScore(tanh, m, cfg), Temperature(cfg);
    var toolLogit, logit := DrawLogit(ln, home, away, ToolDrawOdds(cfg.drawPrior)) / t,
                            DrawLogit(ln, home, away, DrawOdds(cfg.drawPrior)) / t;
    ToolIsSoftmax(exp, ln, tanh, m, cfg);
    if cfg.drawPrior > 1.0 - TINY {
      OddsAboveClamp(cfg.drawPrior);
      LnIsIncreasing(ln, ToolDrawOdds(cfg.drawPrior), DrawOdds(cfg.drawPrior));
      DivOrder(DrawLogit(ln, home, away, ToolDrawOdds(cfg.drawPrior)),
               DrawLogit(ln, home, away, DrawOdds(cfg.drawPrior)), t);
      DrawLogitMatters(exp, home / t, toolLogit, logit, away / t);
    } else {
      OddsWithinClamp(cfg.drawPrior);
    }
  }

  function ToolDrawOdds(drawPrior: real): real {
    var prior := Clamp(drawPrior, TINY, 1.0 - TINY);
    prior / (1.0 - prior)
  }

  lemma ToolIsSoftmax(exp: real -> real, ln: real -> real, tanh: real -> real, m: MatchStats, cfg: Config)
    requires IsExp(exp)
    ensures ToolDistribution(exp, ln, tanh, m, cfg) == (
      var home, away, t := HomeScore(tanh, m, cfg), AwayScore(tanh, m, cfg), Temperature(cfg);
      Softmax(exp, home / t, DrawLogit(ln, home, away, ToolDrawOdds(cfg.drawPrior)) / t, away / t))
  {
    var home, away, t := HomeScore(tanh, m, cfg), AwayScore(tanh, m, cfg), Temperature(cfg);
    ToolSoftmaxIsSoftmax(exp, home / t, DrawLogit(ln, home, away, ToolDrawOdds(cfg.drawPrior)) / t, away / t);
  }

  lemma OddsWithinClamp(prior: real)
    requires prior <= 1.0 - TINY
    ensures ToolDrawOdds(prior) == DrawOdds(prior)
  {
    assert Clamp(prior, TINY, 1.0 - TINY) == Max(prior, TINY);
    assert Max(1.0 - Max(prior, TINY), TINY) == 1.0 - Max(prior, TINY);
  }

  lemma OddsAboveClamp(prior: real)
    requires prior > 1.0 - TINY
    ensures 0.0 < ToolDrawOdds(prior) < DrawOdds(prior)
  {
    assert Max(1.0 - Max(prior, TINY), TINY) == TINY;
    assert DrawOdds(prior) == prior / TINY;
    assert ToolDrawOdds(prior) == (1.0 - TINY) / TINY;
  }
}

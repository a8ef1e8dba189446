/** The stake authority (native/src/services/agent/authority.rs). */
module Authority {
  import opened Prelude
  import opened Wagers

  datatype Terms = Terms(minEdge: real, multiplier: real, bankroll: real, cap: real)

  /** The cap is the upper bound of an `f64::clamp` from zero, which panics when it is negative. */
  type Policy = t: Terms | t.cap >= 0.0 witness Terms(0.0, 0.0, 0.0, 0.0)

  function FromMaxSpend(maxSpend: real): Policy {
    Terms(0.02, 0.25, Max(maxSpend, 0.0), Max(maxSpend, 0.0))
  }

  /** The stake in closed form. Only the positive part of the edge is staked, in proportion to the
      bookmaker's losing share, and never more than the cap. */
  function StakeOn(edge: real, implied: real, policy: Policy): real
    requires implied < 1.0
  {
    Sized(KellyShare(edge, implied), policy)
  }

  /** What full Kelly stakes per unit of its fraction, after the multiplier. */
  function Rate(policy: Policy): real { policy.multiplier * policy.bankroll }

  /** Fractional Kelly as an amount of money; over the reals it does not matter which factors go first. */
  function Fractional(share: real, policy: Policy): real { share * Rate(policy) }

  function Sized(share: real, policy: Policy): real {
    Clamp(Fractional(share, policy), 0.0, policy.cap)
  }

  function KellyShare(edge: real, implied: real): real
    requires implied < 1.0
  {
    Max(0.0, edge) / (1.0 - implied)
  }

  function Stake(p: real, odds: real, policy: Policy): real
    requires odds > 1.0
  {
    StakeOn(p - 1.0 / odds, 1.0 / odds, policy)
  }

  /** When the Authority lets a wager live. */
  predicate Bets(p: real, odds: real, policy: Policy)
  {
    && odds > 1.0
    && 0.0 < p < 1.0
    && p - 1.0 / odds > policy.minEdge
    && Stake(p, odds, policy) > 0.0
  }

  /** Everything the Authority guarantees about a wager it did not refuse. */
  predicate Live(w: Wager, odds: real, policy: Policy)
  {
    && odds > 1.0
    && 0.0 < w.modelProb < 1.0
    && w.marketImplied == 1.0 / odds
    && w.edge == w.modelProb - w.marketImplied
    && w.edge > policy.minEdge
    && w.fairOdds == 1.0 / w.modelProb
    && 0.0 < w.stakeSol == StakeOn(w.edge, w.marketImplied, policy)
    && w.status == (if w.proofRef.Some? then ProofPassed else Debated)
  }

  predicate Refused(w: Wager) {
    w.status == NoBet && w.stakeSol == 0.0
  }

  /** The ruling as a function of the proposal. The branches that refuse differ in what they
      overwrite: stale fair odds survive unless the probability was usable. */
  function Ruling(w: Wager, odds: real, policy: Policy): Wager
  {
    if odds <= 1.0 then
      w.(marketImplied := 0.0, edge := 0.0, stakeSol := 0.0, status := NoBet)
    else
      var priced := w.(marketImplied := 1.0 / odds);
      if !(0.0 < w.modelProb < 1.0) then
        priced.(edge := 0.0, stakeSol := 0.0, status := NoBet)
      else
        var sized := priced.(edge := w.modelProb - 1.0 / odds, fairOdds := 1.0 / w.modelProb);
        if !Bets(w.modelProb, odds, policy) then
          sized.(stakeSol := 0.0, status := NoBet)
        else
          sized.(stakeSol := Stake(w.modelProb, odds, policy),
                 status := if w.proofRef.Some? then ProofPassed else Debated)
  }

  /** `adjudicate`, field by field. */
  method Adjudicate(proposal: Wager, marketDecimalOdds: real, policy: Policy) returns (wager: Wager)
    ensures wager == Ruling(proposal, marketDecimalOdds, policy)
  {
    wager := proposal;
    var implied := ImpliedProbability(marketDecimalOdds);
    if implied.None? {
      wager := wager.(stakeSol := 0.0);
      wager := wager.(status := NoBet);
      wager := wager.(marketImplied := 0.0);
      wager := wager.(edge := 0.0);
      return;
    }
    wager := wager.(marketImplied := implied.value);
    if !(wager.modelProb > 0.0 && wager.modelProb < 1.0) {
      wager := wager.(stakeSol := 0.0);
      wager := wager.(edge := 0.0);
      wager := wager.(status := NoBet);
      return;
    }
    wager := wager.(edge := wager.modelProb - implied.value);
    wager := wager.(fairOdds := 1.0 / wager.modelProb);
    if wager.edge <= policy.minEdge {
      wager := wager.(stakeSol := 0.0);
      wager := wager.(status := NoBet);
      return;
    }
    SizedIsStake(wager.modelProb, marketDecimalOdds, policy);
    var fullKelly := KellyFraction(wager.modelProb, marketDecimalOdds);
    var sized := Fractional(fullKelly, policy);
    var staked := Clamp(sized, 0.0, policy.cap);
    wager := wager.(stakeSol := staked);
    if staked <= 0.0 {
      wager := wager.(status := NoBet);
      return;
    }
    wager := wager.(status := if wager.proofRef.Some? then ProofPassed else Debated);
  }

  /** The sized Kelly fraction is the stake in closed form. */
  lemma SizedIsStake(p: real, odds: real, policy: Policy)
    requires 0.0 < p < 1.0 && odds > 1.0
    ensures Sized(KellyFraction(p, odds), policy) == Stake(p, odds, policy)
  {
    KellyIsShare(p, odds);
  }

  lemma KellyIsShare(p: real, odds: real)
    requires 0.0 < p < 1.0 && odds > 1.0
    ensures KellyFraction(p, odds) == KellyShare(p - 1.0 / odds, 1.0 / odds)
  {
    KellyIsEdgeOverOneMinusImplied(p, odds);
  }

  /** The ruling is live exactly when the Authority bets, and a flat refusal otherwise. */
  lemma RulingIsLiveOrRefused(w: Wager, odds: real, policy: Policy)
    ensures var ruled := Ruling(w, odds, policy);
            if Bets(w.modelProb, odds, policy) then Live(ruled, odds, policy) else Refused(ruled)
  {}

  /** What a refusal leaves behind. Once the price and the probability are usable, edge and fair odds are exact
      even if the wager is refused; before that they are zeroed, or stale. */
  lemma RulingKeepsBooks(w: Wager, odds: real, policy: Policy)
    ensures var ruled := Ruling(w, odds, policy);
            && ruled.modelProb == w.modelProb && ruled.proofRef == w.proofRef && ruled.wagerId == w.wagerId
            && (odds > 1.0 ==> ruled.marketImplied == 1.0 / odds)
            && (odds <= 1.0 ==> ruled.marketImplied == 0.0)
            && (odds > 1.0 && 0.0 < w.modelProb < 1.0 ==>
                  ruled.edge == w.modelProb - 1.0 / odds && ruled.fairOdds == 1.0 / w.modelProb)
            && (odds <= 1.0 || !(0.0 < w.modelProb < 1.0) ==> ruled.edge == 0.0 && ruled.fairOdds == w.fairOdds)
            && (ruled.status != NoBet ==> ruled.status == if w.proofRef.Some? then ProofPassed else Debated)
  {}

  /** The default policy wants two points of edge and stakes a quarter of Kelly on the spending limit. */
  lemma DefaultRulingIff(w: Wager, odds: real, maxSpend: real)
    ensures var ruled := Ruling(w, odds, FromMaxSpend(maxSpend));
            && (ruled.status != NoBet <==>
                  odds > 1.0 && 0.0 < w.modelProb < 1.0 && w.modelProb - 1.0 / odds > 0.02 && maxSpend > 0.0)
            && (ruled.status != NoBet ==>
                  ruled.stakeSol == KellyFraction(w.modelProb, odds) * (0.25 * maxSpend))
  {
    var policy := FromMaxSpend(maxSpend);
    if odds > 1.0 && 0.0 < w.modelProb < 1.0 {
      DefaultCapNeverBinds(w.modelProb, odds, maxSpend);
      KellyIsEdgeOverOneMinusImplied(w.modelProb, odds);
      DefaultRate(maxSpend);
      ShareIsPositiveIff(KellyFraction(w.modelProb, odds), policy, if maxSpend > 0.0 then 0.25 * maxSpend else 0.0);
    }
  }

  /** Under any policy a fraction of Kelly is that share of the bankroll, times the multiplier. */
  lemma FractionalIsShareOfBankroll(k: real, policy: Policy)
    ensures Fractional(k, policy) == k * (policy.multiplier * policy.bankroll)
  {}

  lemma DefaultRate(maxSpend: real)
    ensures Rate(FromMaxSpend(maxSpend)) == if maxSpend > 0.0 then 0.25 * maxSpend else 0.0
  {}

  lemma ShareIsPositiveIff(k: real, policy: Policy, rate: real)
    requires k >= 0.0 && rate >= 0.0 && Rate(policy) == rate
    ensures Fractional(k, policy) == k * rate
    ensures Fractional(k, policy) > 0.0 <==> k > 0.0 && rate > 0.0
  {
    FractionalAt(k, policy, rate);
    TimesPositive(k, rate);
  }

  lemma FractionalAt(k: real, policy: Policy, rate: real)
    requires Rate(policy) == rate
    ensures Fractional(k, policy) == k * rate
  {}

  lemma TimesPositive(x: real, m: real)
    requires x >= 0.0 && m >= 0.0
    ensures x * m > 0.0 <==> x > 0.0 && m > 0.0
  {}

  /** A positive stake is the fractional Kelly stake cut at the cap, and it needs a positive edge. */
  lemma PositiveStakeIsCappedKelly(edge: real, implied: real, policy: Policy)
    requires implied < 1.0 && StakeOn(edge, implied, policy) > 0.0
    ensures edge > 0.0
    ensures StakeOn(edge, implied, policy)
         == Min(policy.cap, Fractional(edge / (1.0 - implied), policy))
  {
    if edge <= 0.0 {
      DivIntro(0.0, 1.0 - implied, 0.0);
      NoShareNoStake(policy);
    }
  }

  lemma NoShareNoStake(policy: Policy)
    ensures Sized(0.0, policy) == 0.0
  {}

  /** A more confident model never stakes less, at any price and under any policy. */
  lemma StakeIsMonotone(p: real, p': real, odds: real, policy: Policy)
    requires odds > 1.0 && p <= p'
    ensures Stake(p, odds, policy) <= Stake(p', odds, policy)
  {
    StakeOnIsMonotone(p - 1.0 / odds, p' - 1.0 / odds, 1.0 / odds, policy);
  }

  lemma StakeOnIsMonotone(edge: real, edge': real, implied: real, policy: Policy)
    requires edge <= edge' && implied < 1.0
    ensures StakeOn(edge, implied, policy) <= StakeOn(edge', implied, policy)
  {
    DivideMonotone(Max(0.0, edge), Max(0.0, edge'), 1.0 - implied);
    SizedIsMonotone(KellyShare(edge, implied), KellyShare(edge', implied), policy);
  }

  lemma DivideMonotone(x: real, y: real, d: real)
    requires 0.0 <= x <= y && d > 0.0
    ensures 0.0 <= x / d <= y / d
  {}

  lemma SizedIsMonotone(k: real, k': real, policy: Policy)
    requires 0.0 <= k <= k'
    ensures Sized(k, policy) <= Sized(k', policy)
  {
    ScaledClampMonotone(k, k', Rate(policy), policy.cap);
  }

  lemma ScaledClampMonotone(k: real, k': real, m: real, cap: real)
    requires 0.0 <= k <= k' && cap >= 0.0
    ensures Clamp(k * m, 0.0, cap) <= Clamp(k' * m, 0.0, cap)
  {
    if m >= 0.0 {
      TimesOrder(k, k', m);
      ClampMonotone(k * m, k' * m, cap);
    } else {
      TimesSign(k, m);
      TimesSign(k', m);
      NonPositiveClamps(k * m, k' * m, cap);
    }
  }

  lemma TimesOrder(x: real, y: real, m: real)
    requires x <= y && m >= 0.0
    ensures x * m <= y * m
  {}

  lemma TimesSign(x: real, m: real)
    requires x >= 0.0 && m <= 0.0
    ensures x * m <= 0.0
  {}

  lemma ClampMonotone(x: real, y: real, cap: real)
    requires x <= y && cap >= 0.0
    ensures Clamp(x, 0.0, cap) <= Clamp(y, 0.0, cap)
  {}

  lemma NonPositiveClamps(x: real, y: real, cap: real)
    requires x <= 0.0 && y <= 0.0 && cap >= 0.0
    ensures Clamp(x, 0.0, cap) <= Clamp(y, 0.0, cap)
  {}

  /** A proposal with a better probability is ruled at least as large a stake: refusal counts as zero. */
  lemma RulingIsMonotone(w: Wager, w': Wager, odds: real, policy: Policy)
    requires w.modelProb <= w'.modelProb < 1.0
    ensures Ruling(w, odds, policy).stakeSol <= Ruling(w', odds, policy).stakeSol
  {
    if Bets(w.modelProb, odds, policy) {
      StakeIsMonotone(w.modelProb, w'.modelProb, odds, policy);
    }
  }

  /** Under the default policy a quarter of a fraction below one never reaches the cap. */
  lemma DefaultCapNeverBinds(p: real, odds: real, maxSpend: real)
    requires 0.0 < p < 1.0 && odds > 1.0
    ensures var policy := FromMaxSpend(maxSpend);
            && Stake(p, odds, policy) == Fractional(KellyFraction(p, odds), policy)
            && (maxSpend > 0.0 ==> Stake(p, odds, policy) < policy.cap)
  {
    var policy := FromMaxSpend(maxSpend);
    KellyIsEdgeOverOneMinusImplied(p, odds);
    SizedIsStake(p, odds, policy);
    RateIsQuarter(policy, policy.cap);
    SizedBelowCap(KellyFraction(p, odds), policy);
  }

  lemma RateIsQuarter(policy: Policy, bank: real)
    requires policy.multiplier == 0.25 && policy.bankroll == bank
    ensures Rate(policy) == bank / 4.0
  {}

  lemma SizedBelowCap(k: real, policy: Policy)
    requires 0.0 <= k < 1.0 && Rate(policy) == policy.cap / 4.0
    ensures Sized(k, policy) == Fractional(k, policy)
    ensures policy.cap > 0.0 ==> Sized(k, policy) < policy.cap
  {
    QuarterBelow(k, Rate(policy), policy.cap);
  }

  lemma QuarterBelow(k: real, rate: real, cap: real)
    requires 0.0 <= k < 1.0 && rate == cap / 4.0 && cap >= 0.0
    ensures Clamp(k * rate, 0.0, cap) == k * rate
    ensures cap > 0.0 ==> k * rate < cap
  {
    TimesOrder(0.0, k, rate);
    TimesOrder(k, 1.0, rate);
  }
}

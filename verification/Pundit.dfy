/** The two fan pundits: the native one re-adjudicates (native/src/services/agent/pundit_agent.rs),
    the Docker one only edits the wager (crates/agents/fan-pundit-agent/src/main.rs). */
module Pundit {
  import opened Prelude
  import opened Wagers
  import opened Authority
  import opened ProofGuard

  const CONFIDENCE_NUDGE: real := 0.03

  /** The model chooses a stance string; any string but the three known ones is `Other`. */
  datatype Stance = Endorse | Challenge | Veto | Other

  function Nudge(stance: Stance): real {
    match stance
    case Endorse => CONFIDENCE_NUDGE
    case Challenge => -CONFIDENCE_NUDGE
    case Veto => -CONFIDENCE_NUDGE
    case Other => 0.0
  }

  function NudgedProb(p: real, stance: Stance): real {
    Clamp(p + Nudge(stance), 0.01, 0.99)
  }

  /** The wager after one native pass. `None` stands for every way the reasoning can fail to
      produce a verdict; the original ruling then stands. */
  function Reacted(w: Wager, stance: Option<Stance>, policy: Policy): Wager
  {
    if w.status == NoBet || stance.None? || w.marketImplied == 0.0 || 1.0 / w.marketImplied <= 1.0 then w
    else
      var ruled := Ruling(w.(modelProb := NudgedProb(w.modelProb, stance.value)), 1.0 / w.marketImplied, policy);
      if stance.value == Veto then ruled.(status := NoBet, stakeSol := 0.0) else ruled
  }

  /** `react_to_wager`. */
  method ReactToWager(w: Wager, stance: Option<Stance>, policy: Policy) returns (updated: Option<Wager>)
    ensures (if updated.Some? then updated.value else w) == Reacted(w, stance, policy)
    ensures updated.Some? <==>
      w.status != NoBet && stance.Some? && w.marketImplied != 0.0 && 1.0 / w.marketImplied > 1.0
  {
    if w.status == NoBet || stance.None? {
      return None;
    }
    if w.marketImplied == 0.0 {
      return None;
    }
    var odds := 1.0 / w.marketImplied;
    if odds <= 1.0 {
      return None;
    }
    var nudged := w;
    nudged := nudged.(modelProb := NudgedProb(w.modelProb, stance.value));
    var ruled := Adjudicate(nudged, odds, policy);
    if stance.value == Veto {
      ruled := ruled.(status := NoBet);
      ruled := ruled.(stakeSol := 0.0);
    }
    updated := Some(ruled);
  }

  /** One pass keeps a live wager live at the same market price, or refuses it. The branch that
      could not reconstruct the odds is dead for live wagers. */
  lemma PassKeepsLiveOrRefuses(w: Wager, stance: Option<Stance>, odds: real, policy: Policy)
    requires Live(w, odds, policy)
    ensures var r := Reacted(w, stance, policy); Live(r, odds, policy) || Refused(r)
    ensures w.marketImplied != 0.0 && 1.0 / w.marketImplied == odds > 1.0
    ensures Reacted(w, stance, policy).proofRef == w.proofRef
  {
    Reciprocal(odds);
    if stance.Some? {
      RulingIsLiveOrRefused(w.(modelProb := NudgedProb(w.modelProb, stance.value)), odds, policy);
    }
  }

  /** A veto vetoes: whatever the re-adjudication would say, the wager ends as a no-bet without a stake. */
  lemma VetoRefuses(w: Wager, odds: real, policy: Policy)
    requires Live(w, odds, policy)
    ensures Reacted(w, Some(Veto), policy).status == NoBet
    ensures Reacted(w, Some(Veto), policy).stakeSol == 0.0
  {
    Reciprocal(odds);
  }

  /** What each stance makes of the probability of a live wager: three points up or down, kept between one and
      ninety-nine percent. */
  lemma StanceMovesProbability(w: Wager, odds: real, policy: Policy)
    requires Live(w, odds, policy)
    ensures Reacted(w, Some(Endorse), policy).modelProb == (if w.modelProb <= 0.96 then w.modelProb + 0.03 else 0.99)
    ensures Reacted(w, Some(Challenge), policy).modelProb == (if w.modelProb >= 0.04 then w.modelProb - 0.03 else 0.01)
    ensures Reacted(w, Some(Veto), policy).modelProb == Reacted(w, Some(Challenge), policy).modelProb
    ensures Reacted(w, Some(Other), policy).modelProb == Min(Max(w.modelProb, 0.01), 0.99)
    ensures Reacted(w, None, policy) == w
  {
    Reciprocal(odds);
    RulingKeepsBooks(w.(modelProb := NudgedProb(w.modelProb, Endorse)), odds, policy);
  }

  /** And short of a veto the wager is ruled on that probability at the original price. */
  lemma PassIsRuling(w: Wager, stance: Stance, odds: real, policy: Policy)
    requires Live(w, odds, policy) && stance != Veto
    ensures var r := Reacted(w, Some(stance), policy);
            && r == Ruling(w.(modelProb := r.modelProb), odds, policy)
            && (r.status != NoBet <==> Bets(r.modelProb, odds, policy))
  {
    Reciprocal(odds);
    RulingIsLiveOrRefused(w.(modelProb := NudgedProb(w.modelProb, stance)), odds, policy);
  }

  /** Re-ruling a live wager at its own price and probability changes nothing. */
  lemma LiveIsFixedPoint(w: Wager, odds: real, policy: Policy)
    requires Live(w, odds, policy)
    ensures Bets(w.modelProb, odds, policy)
    ensures Ruling(w, odds, policy) == w
  {}

  /** An unrecognised stance reproduces every number exactly when the clamp leaves the probability alone. */
  lemma OtherStanceIsIdentity(w: Wager, odds: real, policy: Policy)
    requires Live(w, odds, policy)
    ensures Reacted(w, Some(Other), policy) == w <==> 0.01 <= w.modelProb <= 0.99
  {
    Reciprocal(odds);
    LiveIsFixedPoint(w, odds, policy);
    assert w.(modelProb := w.modelProb) == w;
  }

  /** Inside the clamp range an endorsement never lowers the stake and a challenge never raises it. */
  lemma StanceMovesStakeItsWay(w: Wager, odds: real, policy: Policy)
    requires Live(w, odds, policy)
    ensures w.modelProb <= 0.99 ==> Reacted(w, Some(Endorse), policy).stakeSol >= w.stakeSol
    ensures w.modelProb >= 0.01 ==> Reacted(w, Some(Challenge), policy).stakeSol <= w.stakeSol
  {
    Reciprocal(odds);
    LiveIsFixedPoint(w, odds, policy);
    if w.modelProb <= 0.99 {
      RulingIsMonotone(w, w.(modelProb := NudgedProb(w.modelProb, Endorse)), odds, policy);
    }
    if w.modelProb >= 0.01 {
      RulingIsMonotone(w.(modelProb := NudgedProb(w.modelProb, Challenge)), w, odds, policy);
    }
  }

  /** Outside that range the promise fails: under the default policy an endorsement lowers the stake
      of a live wager exactly when its probability exceeded the upper clamp. */
  lemma EndorseLowersExactlyAboveClamp(w: Wager, odds: real, maxSpend: real)
    requires Live(w, odds, FromMaxSpend(maxSpend))
    ensures Reacted(w, Some(Endorse), FromMaxSpend(maxSpend)).stakeSol < w.stakeSol <==> w.modelProb > 0.99
  {
    StanceMovesStakeItsWay(w, odds, FromMaxSpend(maxSpend));
    if w.modelProb > 0.99 {
      StakeAfterPass(w, Endorse, odds, FromMaxSpend(maxSpend));
      StakeBeyondClamp(w.modelProb, odds, maxSpend);
    }
  }

  function RuledStake(p: real, odds: real, policy: Policy): real {
    if Bets(p, odds, policy) then Stake(p, odds, policy) else 0.0
  }

  /** A live wager has the stake of its probability, and a pass gives it the stake of the nudged one. */
  lemma StakeAfterPass(w: Wager, stance: Stance, odds: real, policy: Policy)
    requires Live(w, odds, policy) && stance != Veto
    ensures w.stakeSol == RuledStake(w.modelProb, odds, policy) > 0.0
    ensures Reacted(w, Some(stance), policy).stakeSol == RuledStake(NudgedProb(w.modelProb, stance), odds, policy)
  {
    Reciprocal(odds);
    LiveIsFixedPoint(w, odds, policy);
  }

  lemma StakeBeyondClamp(p: real, odds: real, maxSpend: real)
    requires 0.99 < p < 1.0 && RuledStake(p, odds, FromMaxSpend(maxSpend)) > 0.0
    ensures RuledStake(0.99, odds, FromMaxSpend(maxSpend)) < RuledStake(p, odds, FromMaxSpend(maxSpend))
  {
    if Bets(0.99, odds, FromMaxSpend(maxSpend)) {
      DefaultStakeIsStrict(0.99, p, odds, maxSpend);
    }
  }

  /** A challenge keeps its promise outright: the default minimum edge puts every live wager above the
      lower clamp. */
  lemma ChallengeNeverRaisesByDefault(w: Wager, odds: real, maxSpend: real)
    requires Live(w, odds, FromMaxSpend(maxSpend))
    ensures Reacted(w, Some(Challenge), FromMaxSpend(maxSpend)).stakeSol <= w.stakeSol
  {
    Reciprocal(odds);
    StanceMovesStakeItsWay(w, odds, FromMaxSpend(maxSpend));
  }

  lemma DefaultStakeIsStrict(p: real, p': real, odds: real, maxSpend: real)
    requires odds > 1.0 && 0.0 < p < p' < 1.0 && Stake(p, odds, FromMaxSpend(maxSpend)) > 0.0
    ensures Stake(p, odds, FromMaxSpend(maxSpend)) < Stake(p', odds, FromMaxSpend(maxSpend))
  {
    var policy := FromMaxSpend(maxSpend);
    DefaultCapNeverBinds(p, odds, maxSpend);
    DefaultCapNeverBinds(p', odds, maxSpend);
    KellyGrows(p, p', odds, policy);
    RateIsQuarter(policy, policy.cap);
    FractionalGrows(KellyFraction(p, odds), KellyFraction(p', odds), policy);
  }

  lemma KellyGrows(p: real, p': real, odds: real, policy: Policy)
    requires odds > 1.0 && 0.0 < p < p' < 1.0 && Stake(p, odds, policy) > 0.0
    ensures KellyFraction(p, odds) < KellyFraction(p', odds)
  {
    StrictShare(p, p', odds, policy);
    KellyIsShare(p, odds);
    KellyIsShare(p', odds);
  }

  lemma FractionalGrows(k: real, k': real, policy: Policy)
    requires Rate(policy) >= 0.0 && Fractional(k, policy) > 0.0 && k < k'
    ensures Fractional(k, policy) < Fractional(k', policy)
  {
    StrictProduct(k, k', Rate(policy));
  }

  lemma StrictShare(p: real, p': real, odds: real, policy: Policy)
    requires odds > 1.0 && p < p' && Stake(p, odds, policy) > 0.0
    ensures KellyShare(p - 1.0 / odds, 1.0 / odds) < KellyShare(p' - 1.0 / odds, 1.0 / odds)
  {
    PositiveStakeIsCappedKelly(p - 1.0 / odds, 1.0 / odds, policy);
    DivideStrict(p - 1.0 / odds, p' - 1.0 / odds, 1.0 - 1.0 / odds);
  }

  lemma StrictProduct(x: real, y: real, m: real)
    requires m >= 0.0 && x * m > 0.0 && x < y
    ensures x * m < y * m
  {}

  lemma DivideStrict(x: real, y: real, d: real)
    requires 0.0 < x < y && d > 0.0
    ensures x / d < y / d
  {}

  // ---- The Docker pundit -------------------------------------------------

  function Edited(w: Wager, stance: Stance): Wager {
    if w.status == NoBet then w
    else
      var p := NudgedProb(w.modelProb, stance);
      var moved := w.(modelProb := p, edge := p - w.marketImplied);
      if stance == Veto then moved.(status := NoBet, stakeSol := 0.0) else moved
  }

  /** The arithmetic of the Docker pundit's `handle`. */
  method EditWager(w: Wager, stance: Stance) returns (nudged: Wager)
    ensures nudged == Edited(w, stance)
    ensures w.status == NoBet ==> nudged == w
    ensures nudged.fairOdds == w.fairOdds && nudged.marketImplied == w.marketImplied
    ensures w.status != NoBet ==>
      0.01 <= nudged.modelProb <= 0.99 && nudged.edge == nudged.modelProb - nudged.marketImplied
    ensures stance != Veto ==> nudged.status == w.status && nudged.stakeSol == w.stakeSol
    ensures stance == Veto && w.status != NoBet ==> Refused(nudged)
  {
    if w.status == NoBet {
      return w;
    }
    nudged := w;
    nudged := nudged.(modelProb := NudgedProb(nudged.modelProb, stance));
    nudged := nudged.(edge := nudged.modelProb - nudged.marketImplied);
    if stance == Veto {
      nudged := nudged.(status := NoBet);
      nudged := nudged.(stakeSol := 0.0);
    }
  }

  /** Unlike the native pundit, the Docker one leaves `fairOdds` stale. From a live ruling its edit
      passes the guard exactly when the attestation is valid and the effective nudge, after the
      clamp, is within the tolerance of the fair-odds check; a veto passes as a concluded no-bet. */
  lemma EditPassesIffNudgeWithinTolerance(
      w: Wager, stance: Stance, odds: real, policy: Policy, proofRef: Option<string>, tol: real)
    requires Live(w, odds, policy) && tol >= 0.0
    ensures Verified(Edited(w, stance), proofRef, tol).passed <==>
      || stance == Veto
      || (proofRef.Some? && IsValidProofRef(proofRef.value)
          && Abs(NudgedProb(w.modelProb, stance) - w.modelProb) <= tol)
    ensures stance != Veto ==>
      (Fails(FairOddsMismatch, Edited(w, stance), proofRef, tol) <==>
       Abs(NudgedProb(w.modelProb, stance) - w.modelProb) > tol)
  {
    Reciprocal(odds);
    Reciprocal(w.modelProb);
    var e := Edited(w, stance);
    if stance != Veto {
      assert forall f: Failure ::
          f != NoAttestation && f != MalformedAttestation && f != FairOddsMismatch ==> !Fails(f, e, proofRef, tol);
      assert Fails(FairOddsMismatch, e, proofRef, tol) <==> Abs(w.modelProb - e.modelProb) > tol;
      assert Fails(NoAttestation, e, proofRef, tol) <==> proofRef.None?;
      assert Fails(MalformedAttestation, e, proofRef, tol) <==> proofRef.Some? && !IsValidProofRef(proofRef.value);
    }
  }

  /** With the default tolerance of 0.02 the fixed nudge of 0.03 fails the guard on every live
      wager except those so close to certainty that the clamp shortens it. */
  lemma EditUnderDefaultTolerance(w: Wager, stance: Stance, odds: real, policy: Policy, proofRef: string)
    requires Live(w, odds, policy) && IsValidProofRef(proofRef)
    ensures Verified(Edited(w, stance), Some(proofRef), DEFAULT_TOL).passed <==>
      match stance
      case Endorse => w.modelProb >= 0.97
      case Challenge => w.modelProb <= 0.03
      case Veto => true
      case Other => true
  {
    EditPassesIffNudgeWithinTolerance(w, stance, odds, policy, Some(proofRef), DEFAULT_TOL);
  }
}

/** The backtest replay (native/src/services/backtest.rs), with the movement tool it calls
    (crates/rig-venice/src/tools.rs). */
module Backtest {
  import opened Prelude
  import opened Wagers
  import opened Arena

  datatype Tick = Tick(ts: int, outcome: string, decimal: real)

  // ---- The movement tool -------------------------------------------------

  datatype Movement = Movement(pctChange: real, isSharp: bool, shortening: bool, confidence: real)

  function PctChange(current: real, previous: real): real
    requires previous != 0.0
  {
    Abs((current - previous) / previous * 100.0)
  }

  /** The confidence heuristic. The source divides by the threshold; for a threshold of zero IEEE
      arithmetic yields an infinity that the clamp turns into full confidence. */
  function Confidence(pct: real, threshold: real): real {
    if pct >= threshold then
      (if threshold == 0.0 then 1.0 else Clamp((pct - threshold) / threshold, 0.0, 1.0)) * 0.5 + 0.5
    else if threshold == 0.0 then 0.0
    else pct / threshold * 0.5
  }

  /** `ComputeSharpMovement::call`; `None` is its error for prices that are not positive. */
  function SharpMovement(current: real, previous: real, threshold: real): Option<Movement> {
    if previous <= 0.0 || current <= 0.0 then None
    else
      var pct := PctChange(current, previous);
      Some(Movement(pct, pct >= threshold, current < previous, Confidence(pct, threshold)))
  }

  // ---- The declarative meaning of a signal -------------------------------

  /** The most recent earlier price of the same outcome. */
  function Previous(ticks: seq<Tick>, i: nat, outcome: string): Option<real>
    requires i <= |ticks|
  {
    if i == 0 then None
    else if ticks[i - 1].outcome == outcome then Some(ticks[i - 1].decimal)
    else Previous(ticks, i - 1, outcome)
  }

  predicate AllPriced(ticks: seq<Tick>) {
    forall t | t in ticks :: t.decimal > 1.0
  }

  lemma {:induction false} PreviousIsPriced(ticks: seq<Tick>, i: nat, outcome: string)
    requires i <= |ticks| && AllPriced(ticks)
    ensures Previous(ticks, i, outcome).Some? ==> Previous(ticks, i, outcome).value > 1.0
  {
    if i > 0 && ticks[i - 1].outcome != outcome {
      PreviousIsPriced(ticks, i - 1, outcome);
    }
  }

  /** Tick `i` is a signal: it moved from the previous tick of its outcome by at least the threshold,
      and it is not a re-send of the same price. */
  predicate IsSignal(ticks: seq<Tick>, i: nat, threshold: real)
    requires i < |ticks|
  {
    var previous := Previous(ticks, i, ticks[i].outcome);
    && previous.Some? && previous.value > 0.0
    && Abs(ticks[i].decimal - previous.value) >= EPSILON
    && PctChange(ticks[i].decimal, previous.value) >= threshold
  }

  /** The re-send guard only matters for absurdly small thresholds: from one hundred machine epsilons
      on, a signal is just a sufficient move. */
  lemma SignalIsSufficientMove(ticks: seq<Tick>, i: nat, threshold: real)
    requires i < |ticks| && AllPriced(ticks) && threshold >= 100.0 * EPSILON
    ensures IsSignal(ticks, i, threshold) <==>
      var previous := Previous(ticks, i, ticks[i].outcome);
      previous.Some? && previous.value > 0.0 && PctChange(ticks[i].decimal, previous.value) >= threshold
  {
    PreviousIsPriced(ticks, i, ticks[i].outcome);
    var previous := Previous(ticks, i, ticks[i].outcome);
    if previous.Some? {
      SmallMove(ticks[i].decimal, previous.value);
    }
  }

  lemma SmallMove(current: real, previous: real)
    requires previous > 1.0
    ensures Abs(current - previous) < EPSILON ==> PctChange(current, previous) < 100.0 * EPSILON
  {
    var q := (current - previous) / previous;
    assert q * previous == current - previous;
    if Abs(q) >= EPSILON {
      MagnitudeGrows(q, previous);
    }
  }

  lemma MagnitudeGrows(q: real, x: real)
    requires x > 1.0
    ensures Abs(q * x) >= Abs(q)
  {
    var d := x - 1.0;
    assert q * x == q + q * d;
    if q >= 0.0 { assert q * d >= 0.0; } else { assert q * d <= 0.0; }
  }

  /** How many of the first `n` ticks are signals. */
  function SignalCount(ticks: seq<Tick>, n: nat, threshold: real): nat
    requires n <= |ticks|
  {
    if n == 0 then 0
    else SignalCount(ticks, n - 1, threshold) + (if IsSignal(ticks, n - 1, threshold) then 1 else 0)
  }

  const FOLLOW := "match-intelligence-backtest"
  const FADE := "contrarian-backtest"

  /** The two positions a signal opens, settled against the winner. */
  function Pair(ticks: seq<Tick>, i: nat, threshold: real, winner: string): seq<Position>
    requires i < |ticks| && IsSignal(ticks, i, threshold)
  {
    var tick, previous := ticks[i], Previous(ticks, i, ticks[i].outcome).value;
    var direction := if tick.decimal < previous then With else Against;
    var pct := PctChange(tick.decimal, previous);
    [Settled(FOLLOW, FollowSharp, tick, pct, direction, Confidence(pct, threshold), winner),
     Settled(FADE, FadeSharp, tick, pct, Opposite(direction), Confidence(pct, threshold), winner)]
  }

  /** The positions of the first `n` ticks: a pair for each signal, in order, and nothing else. */
  function Positions(ticks: seq<Tick>, n: nat, threshold: real, winner: string): seq<Position>
    requires n <= |ticks|
  {
    if n == 0 then []
    else
      Positions(ticks, n - 1, threshold, winner)
      + (if IsSignal(ticks, n - 1, threshold) then Pair(ticks, n - 1, threshold, winner) else [])
  }

  /** `settle_position`. */
  function Settled(agentId: string, strategy: Strategy, tick: Tick, pct: real, direction: Direction,
                   confidence: real, winner: string): Position {
    var won := Won(direction, winner == tick.outcome);
    Position(agentId, strategy, tick.outcome, tick.decimal, pct, direction, confidence,
             Some(Outcome(won, Pnl(won, tick.decimal))))
  }

  /** Tick `j` is the previous one of the outcome of tick `i`. */
  predicate IsPrevious(ticks: seq<Tick>, i: nat, j: nat, outcome: string)
    requires i <= |ticks|
  {
    j < i && ticks[j].outcome == outcome && forall k | j < k < i :: ticks[k].outcome != outcome
  }

  lemma {:induction false} PreviousIsLatest(ticks: seq<Tick>, i: nat, outcome: string)
    requires i <= |ticks|
    ensures match Previous(ticks, i, outcome)
            case Some(v) => exists j: nat :: IsPrevious(ticks, i, j, outcome) && ticks[j].decimal == v
            case None => forall j | 0 <= j < i :: ticks[j].outcome != outcome
  {
    if i > 0 {
      if ticks[i - 1].outcome == outcome {
        assert IsPrevious(ticks, i, i - 1, outcome);
      } else {
        PreviousIsLatest(ticks, i - 1, outcome);
        if Previous(ticks, i, outcome).Some? {
          var j: nat :| IsPrevious(ticks, i - 1, j, outcome) && ticks[j].decimal == Previous(ticks, i, outcome).value;
          assert IsPrevious(ticks, i, j, outcome);
        }
      }
    }
  }

  /** The change in percent of the previous price: equal rises and falls change as much. */
  lemma PctChangeIsSymmetric(previous: real, d: real)
    requires previous > 0.0
    ensures PctChange(previous + d, previous) == PctChange(previous - d, previous)
    ensures PctChange(previous + d, previous) * previous == 100.0 * (if d >= 0.0 then d else -d)
  {
    var q := d / previous;
    assert q * previous == d;
    assert (previous + d - previous) / previous == q;
    assert (previous - d - previous) / previous == -q by {
      DivIntro(-d, previous, -q);
    }
    if q >= 0.0 { TimesSign(q, previous); } else { TimesSign(-q, previous); }
  }

  lemma TimesSign(q: real, x: real)
    requires q >= 0.0 && x > 0.0
    ensures q * x >= 0.0
  {}

  /** The confidence of a move: it grows with the move from zero to one, and full confidence takes twice the
      threshold. */
  lemma ConfidenceIsHalfTheRatio(pct: real, threshold: real)
    requires pct >= 0.0 && threshold > 0.0
    ensures Confidence(pct, threshold) == Min(pct / threshold * 0.5, 1.0)
  {
    var r := pct / threshold;
    assert r * threshold == pct;
    DivIntro(pct - threshold, threshold, r - 1.0);
    RatioOrder(pct, threshold, r);
  }

  lemma RatioOrder(x: real, y: real, r: real)
    requires y > 0.0 && r * y == x
    ensures x >= y <==> r >= 1.0
  {
    ScaleOrder(r, 1.0, y);
  }

  /** What the movement tool reports: how far the price moved, whether that reaches the threshold, and which way. */
  lemma MovementReads(current: real, previous: real, threshold: real)
    ensures var m := SharpMovement(current, previous, threshold);
            && (m.Some? <==> current > 0.0 && previous > 0.0)
            && (m.Some? ==>
                  && m.value.pctChange * previous ==
                       100.0 * (if current >= previous then current - previous else previous - current)
                  && (m.value.isSharp <==> m.value.pctChange >= threshold)
                  && (m.value.shortening <==> current < previous)
                  && (threshold > 0.0 ==> m.value.confidence == Min(m.value.pctChange / threshold * 0.5, 1.0)))
  {
    if current > 0.0 && previous > 0.0 {
      PctChangeIsSymmetric(previous, current - previous);
      assert previous + (current - previous) == current;
      if threshold > 0.0 { ConfidenceIsHalfTheRatio(PctChange(current, previous), threshold); }
    }
  }

  /** A price that is sent again, to within two to the power minus 52, is never a signal, whatever the threshold. */
  lemma ResendIsNoSignal(ticks: seq<Tick>, i: nat, threshold: real)
    requires i < |ticks| && Previous(ticks, i, ticks[i].outcome).Some?
    requires var d := ticks[i].decimal - Previous(ticks, i, ticks[i].outcome).value;
             -1.0 / 4503599627370496.0 < d < 1.0 / 4503599627370496.0
    ensures !IsSignal(ticks, i, threshold)
  {}

  /** The two positions of a signal: with a fallen price the follower bets on the outcome and the fader against
      it, with a risen one the other way round; each pays by the true winner. */
  lemma PairBetsApart(ticks: seq<Tick>, i: nat, threshold: real, winner: string)
    requires i < |ticks| && IsSignal(ticks, i, threshold)
    ensures var pair, fell := Pair(ticks, i, threshold, winner),
                              ticks[i].decimal < Previous(ticks, i, ticks[i].outcome).value;
            && |pair| == 2
            && pair[0].strategy == FollowSharp && pair[1].strategy == FadeSharp
            && pair[0].agentId == "match-intelligence-backtest" && pair[1].agentId == "contrarian-backtest"
            && (pair[0].direction == With <==> fell) && (pair[1].direction == With <==> !fell)
            && (forall p | p in pair ::
                  && p.selection == ticks[i].outcome && p.oddsAtEntry == ticks[i].decimal && p.outcome.Some?
                  && p.movePct == PctChange(ticks[i].decimal, Previous(ticks, i, ticks[i].outcome).value)
                  && p.confidence == Confidence(p.movePct, threshold)
                  && (p.outcome.value.won <==> (p.direction == With <==> winner == ticks[i].outcome))
                  && p.outcome.value.pnl == (if p.outcome.value.won then ticks[i].decimal - 1.0 else -1.0))
  {}

  // ---- The replay loop ---------------------------------------------------

  datatype Replay = Replay(positions: seq<Position>, signals: nat)

  /** The loop of `replay_fixture`. The parser only emits prices above one, so the tool's error branch
      is dead and the replay always completes. */
  method ReplayTicks(ticks: seq<Tick>, threshold: real, winner: string) returns (r: Option<Replay>)
    requires AllPriced(ticks)
    ensures r == Some(Replay(Positions(ticks, |ticks|, threshold, winner), SignalCount(ticks, |ticks|, threshold)))
  {
    var lastSeen: map<string, real> := map[];
    var positions: seq<Position> := [];
    var signals := 0;
    for n := 0 to |ticks|
      invariant forall o :: o in lastSeen <==> Previous(ticks, n, o).Some?
      invariant forall o | o in lastSeen :: Previous(ticks, n, o) == Some(lastSeen[o])
      invariant positions == Positions(ticks, n, threshold, winner)
      invariant signals == SignalCount(ticks, n, threshold)
    {
      var tick := ticks[n];
      if tick.outcome !in lastSeen {
        lastSeen := lastSeen[tick.outcome := tick.decimal];
        continue;
      }
      var previous := lastSeen[tick.outcome];
      PreviousIsPriced(ticks, n, tick.outcome);
      lastSeen := lastSeen[tick.outcome := tick.decimal];
      if Abs(tick.decimal - previous) < EPSILON {
        continue;
      }
      var movement := SharpMovement(tick.decimal, previous, threshold);
      if movement.None? {
        assert false;
        return None;
      }
      if !movement.value.isSharp {
        continue;
      }
      signals := signals + 1;
      var pct, confidence := movement.value.pctChange, movement.value.confidence;
      var shortened := tick.decimal < previous;
      var follow := if shortened then With else Against;
      var fade := if shortened then Against else With;
      var pair := [Settled(FOLLOW, FollowSharp, tick, pct, follow, confidence, winner)];
      pair := pair + [Settled(FADE, FadeSharp, tick, pct, fade, confidence, winner)];
      assert pair == Pair(ticks, n, threshold, winner);
      positions := positions + pair;
    }
    return Some(Replay(positions, signals));
  }

  // ---- Conservation ------------------------------------------------------

  /** The odds of the signals among the first `n` ticks, less both stakes. */
  function OddsLessStakes(ticks: seq<Tick>, n: nat, threshold: real): real
    requires n <= |ticks|
  {
    if n == 0 then 0.0
    else
      OddsLessStakes(ticks, n - 1, threshold)
      + (if IsSignal(ticks, n - 1, threshold) then ticks[n - 1].decimal - 2.0 else 0.0)
  }

  /** Whatever the winner: two positions a signal, each agent takes one of them, exactly one of the two
      wins, and the two profits add up to the odds less both stakes, as the leaderboard counts. */
  lemma ReplayConserves(ticks: seq<Tick>, n: nat, threshold: real, winner: string)
    requires n <= |ticks|
    ensures var ps, signals := Positions(ticks, n, threshold, winner), SignalCount(ticks, n, threshold);
            var follow, fade := FromPositions(FOLLOW, ps), FromPositions(FADE, ps);
            && |ps| == 2 * signals
            && follow.positionsTaken == fade.positionsTaken == signals
            && follow.positionsWon + fade.positionsWon == signals
            && follow.totalPnl + fade.totalPnl == OddsLessStakes(ticks, n, threshold)
            && (signals > 0 ==> follow.winRate + fade.winRate == 1.0)
  {
    SidesAddUp(ticks, n, threshold, winner);
    var ps, signals := Positions(ticks, n, threshold, winner), SignalCount(ticks, n, threshold);
    if signals > 0 {
      RatesAddUp(Wins(SettledBy(FOLLOW, ps)), Wins(SettledBy(FADE, ps)), signals);
    }
  }

  lemma {:induction false} SidesAddUp(ticks: seq<Tick>, n: nat, threshold: real, winner: string)
    requires n <= |ticks|
    ensures var ps, signals := Positions(ticks, n, threshold, winner), SignalCount(ticks, n, threshold);
            var follow, fade := SettledBy(FOLLOW, ps), SettledBy(FADE, ps);
            && |ps| == 2 * signals && |follow| == |fade| == signals
            && Wins(follow) + Wins(fade) == signals
            && TotalPnl(follow) + TotalPnl(fade) == OddsLessStakes(ticks, n, threshold)
  {
    if n > 0 {
      SidesAddUp(ticks, n - 1, threshold, winner);
      var ps := Positions(ticks, n - 1, threshold, winner);
      if IsSignal(ticks, n - 1, threshold) {
        PairAdds(ps, ticks, n - 1, threshold, winner);
      } else {
        assert Positions(ticks, n, threshold, winner) == ps;
      }
    }
  }

  /** What one more signal adds to the two sides of the leaderboard. */
  lemma PairAdds(ps: seq<Position>, ticks: seq<Tick>, i: nat, threshold: real, winner: string)
    requires i < |ticks| && IsSignal(ticks, i, threshold)
    ensures var all := ps + Pair(ticks, i, threshold, winner);
            var follow, fade := SettledBy(FOLLOW, ps), SettledBy(FADE, ps);
            var follow', fade' := SettledBy(FOLLOW, all), SettledBy(FADE, all);
            && |follow'| == |follow| + 1 && |fade'| == |fade| + 1
            && Wins(follow') + Wins(fade') == Wins(follow) + Wins(fade) + 1
            && TotalPnl(follow') + TotalPnl(fade') == TotalPnl(follow) + TotalPnl(fade) + (ticks[i].decimal - 2.0)
  {
    var pair := Pair(ticks, i, threshold, winner);
    SettledByConcat(FOLLOW, ps, pair);
    SettledByConcat(FADE, ps, pair);
    PairSplits(ticks, i, threshold, winner);
    TotalsConcat(SettledBy(FOLLOW, ps), [pair[0]]);
    TotalsConcat(SettledBy(FADE, ps), [pair[1]]);
  }

  lemma RatesAddUp(a: nat, b: nat, n: nat)
    requires n > 0 && a + b == n
    ensures a as real / n as real + b as real / n as real == 1.0
  {
    var x, y, m := a as real / n as real, b as real / n as real, n as real;
    assert x * m == a as real && y * m == b as real;
    assert m * (x + y - 1.0) == 0.0;
  }

  lemma PairSplits(ticks: seq<Tick>, i: nat, threshold: real, winner: string)
    requires i < |ticks| && IsSignal(ticks, i, threshold)
    ensures var pair := Pair(ticks, i, threshold, winner);
            && SettledBy(FOLLOW, pair) == [pair[0]] && SettledBy(FADE, pair) == [pair[1]]
            && Wins([pair[0]]) + Wins([pair[1]]) == 1
            && TotalPnl([pair[0]]) + TotalPnl([pair[1]]) == ticks[i].decimal - 2.0
  {
    var pair := Pair(ticks, i, threshold, winner);
    assert FOLLOW[0] == 'm' && FADE[0] == 'c';
    assert pair[1..] == [pair[1]] && [pair[1]][1..] == [];
    assert SettledBy(FOLLOW, [pair[1]]) == [] && SettledBy(FADE, [pair[1]]) == [pair[1]];
    OppositeBets(pair[0].direction, winner == ticks[i].outcome, ticks[i].decimal);
  }
}

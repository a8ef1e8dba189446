/** Positions of the follow-versus-fade contest and their scoring (crates/agent-core/src/arena.rs). */
module Arena {
  import opened Prelude

  datatype Strategy = FollowSharp | FadeSharp

  datatype Direction = With | Against

  function Opposite(d: Direction): Direction { if d == With then Against else With }

  /** The settlement rule that the backtest and the coordinator share. */
  function Won(direction: Direction, selectionWon: bool): bool {
    match direction
    case With => selectionWon
    case Against => !selectionWon
  }

  function Pnl(won: bool, odds: real): real {
    if won then odds - 1.0 else -1.0
  }

  datatype Outcome = Outcome(won: bool, pnl: real)

  datatype Position = Position(
    agentId: string,
    strategy: Strategy,
    selection: string,
    oddsAtEntry: real,
    movePct: real,
    direction: Direction,
    confidence: real,
    outcome: Option<Outcome>)

  datatype Entry = Entry(positionsTaken: nat, positionsWon: nat, totalPnl: real, winRate: real)

  /** The settled positions of one agent. */
  function SettledBy(agentId: string, ps: seq<Position>): (r: seq<Position>)
    ensures forall p | p in r :: p.outcome.Some?
  {
    if ps == [] then []
    else (if ps[0].agentId == agentId && ps[0].outcome.Some? then [ps[0]] else []) + SettledBy(agentId, ps[1..])
  }

  function Wins(ps: seq<Position>): nat {
    if ps == [] then 0
    else (if ps[0].outcome.Some? && ps[0].outcome.value.won then 1 else 0) + Wins(ps[1..])
  }

  function TotalPnl(ps: seq<Position>): real {
    if ps == [] then 0.0
    else (if ps[0].outcome.Some? then ps[0].outcome.value.pnl else 0.0) + TotalPnl(ps[1..])
  }

  /** `from_positions`. */
  function FromPositions(agentId: string, ps: seq<Position>): Entry {
    var settled := SettledBy(agentId, ps);
    var taken, won := |settled|, Wins(settled);
    Entry(taken, won, TotalPnl(settled), if taken > 0 then won as real / taken as real else 0.0)
  }

  /** The settled positions of an agent, each as often as it occurs. */
  lemma {:induction false} SettledByIsFilter(agentId: string, ps: seq<Position>, p: Position)
    ensures multiset(SettledBy(agentId, ps))[p] ==
      if p.agentId == agentId && p.outcome.Some? then multiset(ps)[p] else 0
  {
    if ps != [] {
      SettledByIsFilter(agentId, ps[1..], p);
      assert ps == [ps[0]] + ps[1..];
    }
  }

  /** The wins are the positions that won. */
  lemma {:induction false} WinsCountWon(ps: seq<Position>)
    ensures Wins(ps) == |WonAt(ps)|
  {
    if ps != [] {
      var front, last := ps[..|ps| - 1], ps[|ps| - 1];
      WinsCountWon(front);
      TotalsConcat(front, [last]);
      assert ps == front + [last];
      var won := last.outcome.Some? && last.outcome.value.won;
      assert WonAt(ps) == if won then WonAt(front) + {|ps| - 1} else WonAt(front);
    }
  }

  function WonAt(ps: seq<Position>): set<int> {
    set i | 0 <= i < |ps| && ps[i].outcome.Some? && ps[i].outcome.value.won
  }

  /** The leaderboard entry counts the settled positions of the agent and those of them that won. */
  lemma EntryCountsSettled(agentId: string, ps: seq<Position>)
    ensures var e, settled := FromPositions(agentId, ps), SettledBy(agentId, ps);
            e.positionsTaken == |settled| && e.positionsWon == |WonAt(settled)| && e.totalPnl == TotalPnl(settled)
  {
    WinsCountWon(SettledBy(agentId, ps));
  }

  /** And its rate is won over taken. */
  lemma EntryRate(agentId: string, ps: seq<Position>)
    ensures var e := FromPositions(agentId, ps);
            if e.positionsTaken == 0 then e.winRate == 0.0
            else IsRate(e.winRate, e.positionsWon as real, e.positionsTaken as real)
  {
    var e := FromPositions(agentId, ps);
    if e.positionsTaken > 0 { RateOf(e.positionsWon as real, e.positionsTaken as real); }
  }

  predicate IsRate(rate: real, won: real, taken: real) { rate * taken == won }

  lemma RateOf(won: real, taken: real)
    requires taken > 0.0
    ensures IsRate(won / taken, won, taken)
  {}

  /** A bet with the selection wins exactly with it, and pays the odds less the stake. */
  lemma BetPays(direction: Direction, selectionWon: bool, odds: real)
    ensures Won(direction, selectionWon) <==> (direction == With <==> selectionWon)
    ensures Pnl(true, odds) == odds - 1.0 && Pnl(false, odds) == -1.0
  {}

  lemma {:induction false} SettledByConcat(agentId: string, a: seq<Position>, b: seq<Position>)
    ensures SettledBy(agentId, a + b) == SettledBy(agentId, a) + SettledBy(agentId, b)
  {
    if a == [] {
      assert a + b == b;
    } else {
      assert (a + b)[1..] == a[1..] + b;
      SettledByConcat(agentId, a[1..], b);
    }
  }

  lemma {:induction false} TotalsConcat(a: seq<Position>, b: seq<Position>)
    ensures Wins(a + b) == Wins(a) + Wins(b) && TotalPnl(a + b) == TotalPnl(a) + TotalPnl(b)
  {
    if a == [] {
      assert a + b == b;
    } else {
      assert (a + b)[1..] == a[1..] + b;
      TotalsConcat(a[1..], b);
    }
  }

  /** Opposite bets on the same event: one wins, and together they return the odds less both stakes. */
  lemma OppositeBets(direction: Direction, selectionWon: bool, odds: real)
    ensures Won(Opposite(direction), selectionWon) == !Won(direction, selectionWon)
    ensures Pnl(Won(direction, selectionWon), odds) + Pnl(Won(Opposite(direction), selectionWon), odds) == odds - 2.0
  {}
}

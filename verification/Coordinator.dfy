/** The settlement authority of the contest (crates/agents/arena-coordinator/src/main.rs). */
module Coordinator {
  import opened Prelude
  import opened Arena
  import opened ArenaAgents

  datatype Score = Score(followWins: nat, followLosses: nat, fadeWins: nat, fadeLosses: nat) {
    function Count(strategy: Strategy, won: bool): nat {
      match (strategy, won)
      case (FollowSharp, true) => followWins
      case (FollowSharp, false) => followLosses
      case (FadeSharp, true) => fadeWins
      case (FadeSharp, false) => fadeLosses
    }

    function Add(strategy: Strategy, won: bool): Score {
      match (strategy, won)
      case (FollowSharp, true) => this.(followWins := followWins + 1)
      case (FollowSharp, false) => this.(followLosses := followLosses + 1)
      case (FadeSharp, true) => this.(fadeWins := fadeWins + 1)
      case (FadeSharp, false) => this.(fadeLosses := fadeLosses + 1)
    }

    function Total(): nat { followWins + followLosses + fadeWins + fadeLosses }

    function FollowPnl(): int { followWins - followLosses }

    function FadePnl(): int { fadeWins - fadeLosses }
  }

  datatype Record = Record(id: PositionId, won: bool, pnl: real)

  datatype State = State(settled: set<PositionId>, score: Score, log: seq<Record>)

  const FRESH := State({}, Score(0, 0, 0, 0), [])

  /** Decides from the winner's name whether a selection won. The source compares lower-cased names
      and accepts a winner that contains the selection; any such rule is a parameter here. */
  type Rule = (string, string) -> bool

  /** Finished fixtures: the winner, if the result carries one. */
  type Results = map<nat, Option<string>>

  predicate Decided(p: Logged, results: Results) {
    p.key.fixtureId in results && results[p.key.fixtureId].Some?
  }

  function PositionWon(p: Logged, winner: string, rule: Rule): bool {
    Won(p.direction, rule(winner, p.key.selection))
  }

  function RecordOf(p: Logged, winner: string, rule: Rule): Record {
    var won := PositionWon(p, winner, rule);
    Record(p.id, won, Pnl(won, p.odds))
  }

  datatype Settling = Settling(state: State, writes: nat, running: bool)

  /** One position: skipped, settled, or the append fails and the step aborts before anything else. */
  function OnPosition(pr: Settling, p: Logged, results: Results, rule: Rule): Settling {
    var st := pr.state;
    if !pr.running || p.id in st.settled || !Decided(p, results) then pr
    else if pr.writes == 0 then pr.(running := false)
    else
      var record := RecordOf(p, results[p.key.fixtureId].value, rule);
      Settling(State(st.settled + {p.id}, st.score.Add(p.id.agent, record.won), st.log + [record]), pr.writes - 1, true)
  }

  function OnPositions(pr: Settling, ps: seq<Logged>, results: Results, rule: Rule): Settling
    decreases |ps|
  {
    if ps == [] then pr else OnPositions(OnPosition(pr, ps[0], results, rule), ps[1..], results, rule)
  }

  lemma {:induction false} AbortedStays(pr: Settling, ps: seq<Logged>, results: Results, rule: Rule)
    requires !pr.running
    ensures OnPositions(pr, ps, results, rule) == pr
    decreases |ps|
  {
    if ps != [] {
      AbortedStays(pr, ps[1..], results, rule);
    }
  }

  class ArenaCoordinator {
    var settled: set<PositionId>
    var score: Score
    var log: seq<Record>

    constructor ()
      ensures Current() == FRESH
    {
      settled, score, log := {}, Score(0, 0, 0, 0), [];
    }

    function Current(): State
      reads this
    {
      State(settled, score, log)
    }

    /** `coordinator_step` on the positions of both logs; `None` is an early return with an error. */
    method Step(follow: seq<Logged>, fade: seq<Logged>, results: Results, rule: Rule, writes: nat)
      returns (count: Option<nat>)
      modifies this
      ensures var done := OnPositions(Settling(old(Current()), writes, true), follow + fade, results, rule);
              Current() == done.state && (count.Some? <==> done.running)
      ensures count.Some? ==> count.value == |log| - |old(log)|
    {
      var ps := follow + fade;
      ghost var whole := OnPositions(Settling(Current(), writes, true), ps, results, rule);
      var left, n := writes, 0;
      for i := 0 to |ps|
        invariant whole == OnPositions(Settling(Current(), left, true), ps[i..], results, rule)
        invariant n == |log| - |old(log)|
      {
        var p := ps[i];
        if p.id in settled {
          continue;
        }
        if p.key.fixtureId !in results {
          continue;
        }
        var outcome := results[p.key.fixtureId];
        if outcome.None? {
          continue;
        }
        var selectionWon := rule(outcome.value, p.key.selection);
        var won := match p.direction case With => selectionWon case Against => !selectionWon;
        var pnl := if won then p.odds - 1.0 else -1.0;
        if left == 0 {
          AbortedStays(Settling(Current(), 0, false), ps[i + 1..], results, rule);
          return None;
        }
        left := left - 1;
        log := log + [Record(p.id, won, pnl)];
        settled := settled + {p.id};
        match p.id.agent {
          case FollowSharp =>
            if won {
              score := score.(followWins := score.followWins + 1);
            } else {
              score := score.(followLosses := score.followLosses + 1);
            }
          case FadeSharp =>
            if won {
              score := score.(fadeWins := score.fadeWins + 1);
            } else {
              score := score.(fadeLosses := score.fadeLosses + 1);
            }
        }
        n := n + 1;
      }
      return Some(n);
    }
  }

  // ---- Settled once ------------------------------------------------------

  function CountRecords(log: seq<Record>, strategy: Strategy, won: bool): nat {
    if log == [] then 0
    else
      var last := log[|log| - 1];
      CountRecords(log[..|log| - 1], strategy, won) + (if last.id.agent == strategy && last.won == won then 1 else 0)
  }

  function IdsOf(log: seq<Record>): set<PositionId> {
    set r | r in log :: r.id
  }

  predicate DistinctIds(log: seq<Record>) {
    forall i, j | 0 <= i < j < |log| :: log[i].id != log[j].id
  }

  /** The log holds one record for each settled position and no other, and the counters count the log. */
  ghost predicate Consistent(st: State) {
    && st.settled == IdsOf(st.log)
    && DistinctIds(st.log)
    && |st.settled| == |st.log|
    && (forall s, w :: st.score.Count(s, w) == CountRecords(st.log, s, w))
    && st.score.Total() == |st.log|
  }

  lemma NewRecord(log: seq<Record>, r: Record)
    requires DistinctIds(log) && r.id !in IdsOf(log)
    ensures IdsOf(log + [r]) == IdsOf(log) + {r.id} && DistinctIds(log + [r])
    ensures forall s, w ::
      CountRecords(log + [r], s, w) == CountRecords(log, s, w) + (if r.id.agent == s && r.won == w then 1 else 0)
  {
    assert (log + [r])[..|log|] == log;
    assert forall i | 0 <= i < |log| :: log[i] in log && log[i].id in IdsOf(log);
    forall id | id in IdsOf(log) + {r.id} ensures id in IdsOf(log + [r]) {
      if id == r.id {
        assert r in log + [r];
      } else {
        var q :| q in log && q.id == id;
        assert q in log + [r];
      }
    }
  }

  lemma PositionKeepsConsistent(pr: Settling, p: Logged, results: Results, rule: Rule)
    requires Consistent(pr.state)
    ensures Consistent(OnPosition(pr, p, results, rule).state)
  {
    if pr.running && p.id !in pr.state.settled && Decided(p, results) && pr.writes > 0 {
      NewRecord(pr.state.log, RecordOf(p, results[p.key.fixtureId].value, rule));
    }
  }

  lemma {:induction false} PositionsKeepConsistent(pr: Settling, ps: seq<Logged>, results: Results, rule: Rule)
    requires Consistent(pr.state)
    ensures Consistent(OnPositions(pr, ps, results, rule).state)
    decreases |ps|
  {
    if ps != [] {
      PositionKeepsConsistent(pr, ps[0], results, rule);
      PositionsKeepConsistent(OnPosition(pr, ps[0], results, rule), ps[1..], results, rule);
    }
  }

  /** One coordinator step of a run: the logs as far as they had been written, the results as far as
      they were known, and how many appends succeeded before the disk failed. */
  datatype Event = Event(follow: seq<Logged>, fade: seq<Logged>, results: Results, writes: nat)

  function AfterEvent(st: State, e: Event, rule: Rule): State {
    OnPositions(Settling(st, e.writes, true), e.follow + e.fade, e.results, rule).state
  }

  function AfterEvents(st: State, events: seq<Event>, rule: Rule): State
    decreases |events|
  {
    if events == [] then st else AfterEvents(AfterEvent(st, events[0], rule), events[1..], rule)
  }

  /** Over every run of one process, with steps aborting anywhere and positions repeated at will, each
      settled position has exactly one record and the four counters add up to their number. */
  lemma {:induction false} SettlesOnce(st: State, events: seq<Event>, rule: Rule)
    requires Consistent(st)
    ensures Consistent(AfterEvents(st, events, rule))
    decreases |events|
  {
    if events != [] {
      var e := events[0];
      PositionsKeepConsistent(Settling(st, e.writes, true), e.follow + e.fade, e.results, rule);
      SettlesOnce(AfterEvent(st, e, rule), events[1..], rule);
    }
  }

  lemma {:induction false} SettledStays(pr: Settling, ps: seq<Logged>, results: Results, rule: Rule)
    ensures pr.state.settled <= OnPositions(pr, ps, results, rule).state.settled
    decreases |ps|
  {
    if ps != [] {
      SettledStays(OnPosition(pr, ps[0], results, rule), ps[1..], results, rule);
    }
  }

  /** A step that completes leaves no decided position open, and no step settles anything else. */
  lemma {:induction false} StepSettlesExactlyDecided(pr: Settling, ps: seq<Logged>, results: Results, rule: Rule)
    ensures var r := OnPositions(pr, ps, results, rule);
            && (r.running ==> forall p | p in ps && Decided(p, results) :: p.id in r.state.settled)
            && (forall id | id in r.state.settled :: id in pr.state.settled
                  || exists p :: p in ps && p.id == id && Decided(p, results))
    decreases |ps|
  {
    if ps != [] {
      var next := OnPosition(pr, ps[0], results, rule);
      StepSettlesExactlyDecided(next, ps[1..], results, rule);
      SettledStays(next, ps[1..], results, rule);
      var r := OnPositions(pr, ps, results, rule);
      if !pr.running { AbortedStays(pr, ps, results, rule); }
      if !next.running { AbortedStays(next, ps[1..], results, rule); }
      forall id | id in r.state.settled && id !in pr.state.settled
        ensures exists p :: p in ps && p.id == id && Decided(p, results)
      {
        if id in next.state.settled {
          assert ps[0] in ps;
        } else {
          var p :| p in ps[1..] && p.id == id && Decided(p, results);
          assert p in ps;
        }
      }
    }
  }

  /** The record states the result of the position: the bet went the way the winner did, and pays the
      odds less the stake or costs the stake. */
  predicate Justified(r: Record, ps: seq<Logged>, results: Results, rule: Rule) {
    exists p :: p in ps && Decided(p, results) && r.id == p.id
      && (r.won <==> (p.direction == With <==> rule(results[p.key.fixtureId].value, p.key.selection)))
      && r.pnl == (if r.won then p.odds - 1.0 else -1.0)
  }

  /** The log only grows, one append for each write used up, and every new record is justified by a
      decided position of the step. */
  lemma {:induction false} NewRecordsAreJustified(pr: Settling, ps: seq<Logged>, results: Results, rule: Rule)
    ensures var r := OnPositions(pr, ps, results, rule);
            && pr.state.log <= r.state.log
            && |r.state.log| - |pr.state.log| == pr.writes - r.writes
            && (forall k | |pr.state.log| <= k < |r.state.log| :: Justified(r.state.log[k], ps, results, rule))
    decreases |ps|
  {
    if ps != [] {
      var next := OnPosition(pr, ps[0], results, rule);
      NewRecordsAreJustified(next, ps[1..], results, rule);
      var log := OnPositions(pr, ps, results, rule).state.log;
      forall k | |pr.state.log| <= k < |log| ensures Justified(log[k], ps, results, rule) {
        if k < |next.state.log| {
          assert log[k] == next.state.log[k] && ps[0] in ps;
        } else {
          assert Justified(log[k], ps[1..], results, rule);
        }
      }
    }
  }

  /** The guarantee ends with the process: the settled set is not reloaded, so a restarted coordinator
      settles a decided position again. */
  lemma RestartSettlesAgain(p: Logged, winner: string, rule: Rule)
    ensures var e := Event([p], [], map[p.key.fixtureId := Some(winner)], 1);
            var first := AfterEvent(FRESH, e, rule);
            var second := AfterEvent(FRESH.(log := first.log), e, rule);
            first.log == [RecordOf(p, winner, rule)] && second.log == first.log + first.log
  {
    var results := map[p.key.fixtureId := Some(winner)];
    assert [p] + [] == [p];
    SettlesOne(FRESH, p, winner, results, rule);
    SettlesOne(FRESH.(log := [RecordOf(p, winner, rule)]), p, winner, results, rule);
  }

  lemma SettlesOne(st: State, p: Logged, winner: string, results: Results, rule: Rule)
    requires p.id !in st.settled && results == map[p.key.fixtureId := Some(winner)]
    ensures OnPositions(Settling(st, 1, true), [p], results, rule).state.log == st.log + [RecordOf(p, winner, rule)]
  {
    assert [p][1..] == [];
  }

  /** A settled bet wins as its strategy means it to: following a price that shortened wins exactly if the
      selection wins, fading it exactly if the selection does not, and the other way round for a price that
      did not shorten. */
  lemma BetWinsAsMeant(strategy: Strategy, r: Logged, quotes: seq<Quote>, i: nat, j: nat, cfg: Config, winner: string,
      rule: Rule)
    requires i < |quotes| && j < |quotes| && BetsOnMove(strategy, r, quotes, i, j, cfg)
    ensures var shortened, selectionWon := quotes[i].odds < quotes[j].odds, rule(winner, r.key.selection);
            PositionWon(r, winner, rule) <==> (((strategy == FollowSharp) == shortened) == selectionWon)
  {}

  // ---- Zero sum ----------------------------------------------------------

  /** The winner of every fixture, which the results agree with as they come in. */
  type Truth = nat -> string

  predicate Truthful(results: Results, truth: Truth) {
    forall f | f in results && results[f].Some? :: results[f].value == truth(f)
  }

  /** A position with an infinite move is logged with a `null` there, which no longer reads as a number, so
      the coordinator skips that line. */
  predicate Readable(p: Logged) { p.movePct.Finite? }

  /** `load_positions`. */
  function Loaded(log: seq<Logged>): seq<Logged> {
    if log == [] then []
    else
      var last := log[|log| - 1];
      Loaded(log[..|log| - 1]) + (if Readable(last) then [last] else [])
  }

  /** What was loaded from the log as far as it had been written. */
  ghost predicate LoadedFrom(part: seq<Logged>, log: seq<Logged>) {
    exists n :: 0 <= n <= |log| && part == Loaded(log[..n])
  }

  /** The event loaded the two logs as far as they went and saw nothing but the truth. */
  ghost predicate Observes(e: Event, follow: seq<Logged>, fade: seq<Logged>, truth: Truth) {
    LoadedFrom(e.follow, follow) && LoadedFrom(e.fade, fade) && Truthful(e.results, truth)
  }

  lemma {:induction false} LoadedIsReadable(log: seq<Logged>)
    ensures forall p :: p in Loaded(log) <==> p in log && Readable(p)
  {
    if log != [] {
      LoadedIsReadable(log[..|log| - 1]);
      assert log == log[..|log| - 1] + [log[|log| - 1]];
    }
  }

  lemma LoadedFromLog(part: seq<Logged>, log: seq<Logged>)
    requires LoadedFrom(part, log)
    ensures forall p | p in part :: p in log && Readable(p)
  {
    var n :| 0 <= n <= |log| && part == Loaded(log[..n]);
    LoadedIsReadable(log[..n]);
    assert forall p | p in log[..n] :: p in log;
  }

  predicate Numbered(ps: seq<Logged>, agent: Strategy) {
    forall i | 0 <= i < |ps| :: ps[i].id == PositionId(agent, i)
  }

  /** How many of the first `n` positions are settled with the given result. */
  function Tally(settled: set<PositionId>, ps: seq<Logged>, n: nat, won: bool, truth: Truth, rule: Rule): nat
    requires n <= |ps|
  {
    if n == 0 then 0
    else
      var p := ps[n - 1];
      Tally(settled, ps, n - 1, won, truth, rule)
      + (if p.id in settled && PositionWon(p, truth(p.key.fixtureId), rule) == won then 1 else 0)
  }

  lemma {:induction false} TallyAdds(settled: set<PositionId>, ps: seq<Logged>, n: nat, won: bool, truth: Truth,
      rule: Rule, agent: Strategy, k: PositionId)
    requires n <= |ps| && Numbered(ps, agent) && k !in settled
    ensures Tally(settled + {k}, ps, n, won, truth, rule)
         == Tally(settled, ps, n, won, truth, rule)
          + (if k.agent == agent && k.serial < n
                && PositionWon(ps[k.serial], truth(ps[k.serial].key.fixtureId), rule) == won then 1 else 0)
  {
    if n > 0 {
      TallyAdds(settled, ps, n - 1, won, truth, rule, agent, k);
    }
  }

  /** The counters count the settled positions by their true result. */
  predicate Tallied(st: State, follow: seq<Logged>, fade: seq<Logged>, truth: Truth, rule: Rule) {
    && (forall w :: st.score.Count(FollowSharp, w) == Tally(st.settled, follow, |follow|, w, truth, rule))
    && (forall w :: st.score.Count(FadeSharp, w) == Tally(st.settled, fade, |fade|, w, truth, rule))
  }

  lemma PositionKeepsTally(pr: Settling, p: Logged, results: Results, rule: Rule,
      follow: seq<Logged>, fade: seq<Logged>, truth: Truth)
    requires Numbered(follow, FollowSharp) && Numbered(fade, FadeSharp) && (p in follow || p in fade)
    requires Truthful(results, truth) && Tallied(pr.state, follow, fade, truth, rule)
    ensures Tallied(OnPosition(pr, p, results, rule).state, follow, fade, truth, rule)
  {
    var st, st' := pr.state, OnPosition(pr, p, results, rule).state;
    if st' != st {
      forall w ensures st'.score.Count(FollowSharp, w) == Tally(st'.settled, follow, |follow|, w, truth, rule)
               ensures st'.score.Count(FadeSharp, w) == Tally(st'.settled, fade, |fade|, w, truth, rule) {
        TallyAdds(st.settled, follow, |follow|, w, truth, rule, FollowSharp, p.id);
        TallyAdds(st.settled, fade, |fade|, w, truth, rule, FadeSharp, p.id);
      }
    }
  }

  lemma {:induction false} PositionsKeepTally(pr: Settling, ps: seq<Logged>, results: Results, rule: Rule,
      follow: seq<Logged>, fade: seq<Logged>, truth: Truth)
    requires Numbered(follow, FollowSharp) && Numbered(fade, FadeSharp)
    requires forall p | p in ps :: p in follow || p in fade
    requires Truthful(results, truth) && Tallied(pr.state, follow, fade, truth, rule)
    ensures Tallied(OnPositions(pr, ps, results, rule).state, follow, fade, truth, rule)
    decreases |ps|
  {
    if ps != [] {
      PositionKeepsTally(pr, ps[0], results, rule, follow, fade, truth);
      PositionsKeepTally(OnPosition(pr, ps[0], results, rule), ps[1..], results, rule, follow, fade, truth);
    }
  }

  lemma {:induction false} RunKeepsTally(st: State, events: seq<Event>, rule: Rule,
      follow: seq<Logged>, fade: seq<Logged>, truth: Truth)
    requires Numbered(follow, FollowSharp) && Numbered(fade, FadeSharp)
    requires forall e | e in events :: Observes(e, follow, fade, truth)
    requires Tallied(st, follow, fade, truth, rule)
    ensures Tallied(AfterEvents(st, events, rule), follow, fade, truth, rule)
    decreases |events|
  {
    if events != [] {
      var e := events[0];
      assert e in events;
      LoadedFromLog(e.follow, follow);
      LoadedFromLog(e.fade, fade);
      PositionsKeepTally(Settling(st, e.writes, true), e.follow + e.fade, e.results, rule, follow, fade, truth);
      RunKeepsTally(AfterEvent(st, e, rule), events[1..], rule, follow, fade, truth);
    }
  }

  lemma {:induction false} EmptyTally(ps: seq<Logged>, n: nat, won: bool, truth: Truth, rule: Rule)
    requires n <= |ps|
    ensures Tally({}, ps, n, won, truth, rule) == 0
  {
    if n > 0 {
      EmptyTally(ps, n - 1, won, truth, rule);
    }
  }

  lemma {:induction false} MirrorTally(settled: set<PositionId>, follow: seq<Logged>, fade: seq<Logged>, n: nat,
      won: bool, truth: Truth, rule: Rule)
    requires n <= |follow| == |fade| && forall i | 0 <= i < |follow| :: Paired(follow[i], fade[i])
    requires forall i | 0 <= i < n :: follow[i].id in settled <==> fade[i].id in settled
    ensures Tally(settled, follow, n, won, truth, rule) == Tally(settled, fade, n, !won, truth, rule)
  {
    if n > 0 {
      MirrorTally(settled, follow, fade, n - 1, won, truth, rule);
      OppositeBets(follow[n - 1].direction, rule(truth(follow[n - 1].key.fixtureId), follow[n - 1].key.selection), 0.0);
    }
  }

  /** No position with an unreadable line is settled. */
  predicate OnlyReadable(settled: set<PositionId>, follow: seq<Logged>, fade: seq<Logged>) {
    && (forall i | 0 <= i < |follow| && PositionId(FollowSharp, i) in settled :: follow[i].movePct.Finite?)
    && (forall i | 0 <= i < |fade| && PositionId(FadeSharp, i) in settled :: fade[i].movePct.Finite?)
  }

  lemma {:induction false} PositionsKeepReadable(pr: Settling, ps: seq<Logged>, results: Results, rule: Rule,
      follow: seq<Logged>, fade: seq<Logged>)
    requires Numbered(follow, FollowSharp) && Numbered(fade, FadeSharp)
    requires forall p | p in ps :: Readable(p) && (p in follow || p in fade)
    requires OnlyReadable(pr.state.settled, follow, fade)
    ensures OnlyReadable(OnPositions(pr, ps, results, rule).state.settled, follow, fade)
    decreases |ps|
  {
    if ps != [] {
      assert ps[0] in ps;
      PositionsKeepReadable(OnPosition(pr, ps[0], results, rule), ps[1..], results, rule, follow, fade);
    }
  }

  lemma {:induction false} RunKeepsReadable(st: State, events: seq<Event>, rule: Rule,
      follow: seq<Logged>, fade: seq<Logged>, truth: Truth)
    requires Numbered(follow, FollowSharp) && Numbered(fade, FadeSharp)
    requires forall e | e in events :: Observes(e, follow, fade, truth)
    requires OnlyReadable(st.settled, follow, fade)
    ensures OnlyReadable(AfterEvents(st, events, rule).settled, follow, fade)
    decreases |events|
  {
    if events != [] {
      var e := events[0];
      assert e in events;
      LoadedFromLog(e.follow, follow);
      LoadedFromLog(e.fade, fade);
      PositionsKeepReadable(Settling(st, e.writes, true), e.follow + e.fade, e.results, rule, follow, fade);
      RunKeepsReadable(AfterEvent(st, e, rule), events[1..], rule, follow, fade, truth);
    }
  }

  /** Both sides of every bet are settled, or neither is. */
  predicate Together(settled: set<PositionId>, n: nat) {
    forall i | 0 <= i < n :: PositionId(FollowSharp, i) in settled <==> PositionId(FadeSharp, i) in settled
  }

  predicate ZeroSum(score: Score) {
    && score.followWins == score.fadeLosses
    && score.followLosses == score.fadeWins
    && score.FollowPnl() == score.followWins - score.followLosses
    && score.FollowPnl() == -score.FadePnl()
  }

  lemma TogetherIsZeroSum(st: State, follow: AgentState, fade: AgentState, truth: Truth, rule: Rule)
    requires Mirrored(follow, fade) && Tallied(st, follow.log, fade.log, truth, rule)
    requires Together(st.settled, |follow.log|)
    ensures ZeroSum(st.score)
  {
    assert forall i | 0 <= i < |follow.log| :: Paired(follow.log[i], fade.log[i]) && follow.log[i].id.serial == i;
    MirrorTally(st.settled, follow.log, fade.log, |follow.log|, true, truth, rule);
    MirrorTally(st.settled, follow.log, fade.log, |follow.log|, false, truth, rule);
    assert st.score.Count(FollowSharp, true) == st.score.Count(FadeSharp, false);
    assert st.score.Count(FollowSharp, false) == st.score.Count(FadeSharp, true);
  }

  lemma FreshIsTallied(follow: seq<Logged>, fade: seq<Logged>, truth: Truth, rule: Rule)
    ensures Tallied(FRESH, follow, fade, truth, rule)
  {
    forall w ensures FRESH.score.Count(FollowSharp, w) == Tally({}, follow, |follow|, w, truth, rule)
             ensures FRESH.score.Count(FadeSharp, w) == Tally({}, fade, |fade|, w, truth, rule) {
      EmptyTally(follow, |follow|, w, truth, rule);
      EmptyTally(fade, |fade|, w, truth, rule);
    }
  }

  lemma MirroredIsNumbered(follow: AgentState, fade: AgentState)
    requires Mirrored(follow, fade)
    ensures Numbered(follow.log, FollowSharp) && Numbered(fade.log, FadeSharp)
  {
    assert forall i | 0 <= i < |follow.log| :: Paired(follow.log[i], fade.log[i]) && follow.log[i].id.serial == i;
  }

  /** The contest is zero-sum, end to end: two agents in lockstep over any polls, then any coordinator run over
      their logs with results that agree on the winners. Whenever the two sides of every bet are settled
      together, each win of one agent is a loss of the other. */
  lemma ContestIsZeroSum(polls: seq<Poll>, cfg: Config, events: seq<Event>, truth: Truth, rule: Rule)
    requires var follow := AfterPolls(FollowSharp, INITIAL, polls, cfg);
             var fade := AfterPolls(FadeSharp, INITIAL, polls, cfg);
             && (forall e | e in events :: Observes(e, follow.log, fade.log, truth))
             && Together(AfterEvents(FRESH, events, rule).settled, |follow.log|)
    ensures ZeroSum(AfterEvents(FRESH, events, rule).score)
  {
    var follow, fade := AfterPolls(FollowSharp, INITIAL, polls, cfg), AfterPolls(FadeSharp, INITIAL, polls, cfg);
    Lockstep(INITIAL, INITIAL, polls, cfg);
    MirroredIsNumbered(follow, fade);
    FreshIsTallied(follow.log, fade.log, truth, rule);
    RunKeepsTally(FRESH, events, rule, follow.log, fade.log, truth);
    TogetherIsZeroSum(AfterEvents(FRESH, events, rule), follow, fade, truth, rule);
  }

  /** A step that completes on the whole of both logs, every readable position decided. */
  ghost predicate Concludes(st: State, e: Event, follow: seq<Logged>, fade: seq<Logged>, rule: Rule) {
    && e.follow == Loaded(follow) && e.fade == Loaded(fade)
    && (forall p | p in e.follow + e.fade :: Decided(p, e.results))
    && OnPositions(Settling(st, e.writes, true), e.follow + e.fade, e.results, rule).running
  }

  /** A contest that is concluded is zero-sum, whatever happened before: the last step has settled exactly the
      readable positions, and the two sides of a bet are readable together. */
  lemma ConcludedContestIsZeroSum(polls: seq<Poll>, cfg: Config, events: seq<Event>, last: Event, truth: Truth,
      rule: Rule)
    requires var follow := AfterPolls(FollowSharp, INITIAL, polls, cfg);
             var fade := AfterPolls(FadeSharp, INITIAL, polls, cfg);
             && (forall e | e in events + [last] :: Observes(e, follow.log, fade.log, truth))
             && Concludes(AfterEvents(FRESH, events, rule), last, follow.log, fade.log, rule)
    ensures var follow, st := AfterPolls(FollowSharp, INITIAL, polls, cfg), AfterEvents(FRESH, events + [last], rule);
            && ZeroSum(st.score)
            && forall i | 0 <= i < |follow.log| ::
                 PositionId(FollowSharp, i) in st.settled <==> follow.log[i].movePct.Finite?
  {
    var follow, fade := AfterPolls(FollowSharp, INITIAL, polls, cfg), AfterPolls(FadeSharp, INITIAL, polls, cfg);
    Lockstep(INITIAL, INITIAL, polls, cfg);
    MirroredIsNumbered(follow, fade);
    RunKeepsReadable(FRESH, events + [last], rule, follow.log, fade.log, truth);
    AfterLast(FRESH, events, last, rule);
    var st := AfterEvents(FRESH, events + [last], rule);
    ConclusionSettlesReadable(AfterEvents(FRESH, events, rule), last, follow.log, fade.log, rule);
    assert Together(st.settled, |follow.log|) by {
      assert forall i | 0 <= i < |follow.log| :: Paired(follow.log[i], fade.log[i]);
    }
    ContestIsZeroSum(polls, cfg, events + [last], truth, rule);
  }

  lemma {:induction false} AfterLast(st: State, events: seq<Event>, last: Event, rule: Rule)
    ensures AfterEvents(st, events + [last], rule) == AfterEvent(AfterEvents(st, events, rule), last, rule)
    decreases |events|
  {
    if events == [] {
      assert [] + [last] == [last] && [last][1..] == [];
    } else {
      assert (events + [last])[1..] == events[1..] + [last];
      AfterLast(AfterEvent(st, events[0], rule), events[1..], last, rule);
    }
  }

  lemma ConclusionSettlesReadable(st: State, e: Event, follow: seq<Logged>, fade: seq<Logged>, rule: Rule)
    requires Numbered(follow, FollowSharp) && Numbered(fade, FadeSharp) && Concludes(st, e, follow, fade, rule)
    ensures var settled := AfterEvent(st, e, rule).settled;
            && (forall i | 0 <= i < |follow| && Readable(follow[i]) :: PositionId(FollowSharp, i) in settled)
            && (forall i | 0 <= i < |fade| && Readable(fade[i]) :: PositionId(FadeSharp, i) in settled)
  {
    LoadedIsReadable(follow);
    LoadedIsReadable(fade);
    StepSettlesExactlyDecided(Settling(st, e.writes, true), e.follow + e.fade, e.results, rule);
    assert forall p | p in Loaded(follow) || p in Loaded(fade) :: p in e.follow + e.fade;
    assert forall i | 0 <= i < |follow| :: follow[i] in follow;
    assert forall i | 0 <= i < |fade| :: fade[i] in fade;
  }
}

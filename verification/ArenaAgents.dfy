/** The two live agents of the contest, FOLLOW (crates/agents/match-intelligence/src/main.rs) and FADE
    (crates/agents/contrarian/src/main.rs). Both poll the same feed; a step can stop half-way, at a
    failed fetch or a failed append. */
module ArenaAgents {
  import opened Prelude
  import opened Arena

  datatype Key = Key(fixtureId: nat, market: string, selection: string)

  datatype Quote = Quote(key: Key, odds: real)

  /** A relative move. The step divides by the previous price whatever it is, so a previous price of zero
      leaves the finite numbers, as IEEE division does. */
  datatype Pct = Finite(value: real) | Infinite | NotANumber

  /** The markets and selections of one fixture in feed order, or a failed request. */
  datatype Fetch = Snapshot(quotes: seq<Quote>) | FetchFailed

  /** Stands for the UUID: distinct for every logged position of either agent. */
  datatype PositionId = PositionId(agent: Strategy, serial: nat)

  datatype Logged = Logged(
    id: PositionId, key: Key, odds: real, movePct: Pct, direction: Direction, confidence: real)

  datatype Config = Config(threshold: real, gate: real)

  datatype AgentState = AgentState(prev: map<Key, real>, log: seq<Logged>)

  const INITIAL := AgentState(map[], [])

  function MovePct(odds: real, prev: real): Pct {
    if prev != 0.0 then Finite(Abs((odds - prev) / prev * 100.0))
    else if odds == prev then NotANumber
    else Infinite
  }

  predicate AtLeast(pct: Pct, threshold: real) {
    match pct
    case Finite(v) => v >= threshold
    case Infinite => true
    case NotANumber => false
  }

  /** `f64::min` prefers its other argument to a NaN. */
  function AgentConfidence(movePct: Pct): real {
    match movePct
    case Finite(v) => Min(v / 20.0, 0.95)
    case Infinite => 0.95
    case NotANumber => 0.95
  }

  /** The agent takes a position on this quote. */
  predicate Signals(st: AgentState, q: Quote, cfg: Config) {
    && q.key in st.prev
    && AtLeast(MovePct(q.odds, st.prev[q.key]), cfg.threshold)
    && AgentConfidence(MovePct(q.odds, st.prev[q.key])) >= cfg.gate
  }

  /** FOLLOW goes with a shortening price and against a lengthening one; FADE inverts it. */
  function Takes(strategy: Strategy, odds: real, prev: real): Direction {
    var follow := if odds < prev then With else Against;
    if strategy == FollowSharp then follow else Opposite(follow)
  }

  function PositionOn(strategy: Strategy, st: AgentState, q: Quote): Logged
    requires q.key in st.prev
  {
    var prev := st.prev[q.key];
    var pct := MovePct(q.odds, prev);
    Logged(PositionId(strategy, |st.log|), q.key, q.odds, pct, Takes(strategy, q.odds, prev), AgentConfidence(pct))
  }

  /** A step under way: the state, how many more appends the disk will take, and whether it is still
      running. After a failure nothing changes any more. */
  datatype Progress = Progress(state: AgentState, writes: nat, running: bool)

  function OnQuote(strategy: Strategy, p: Progress, q: Quote, cfg: Config): Progress {
    var st := p.state;
    if !p.running then p
    else if !Signals(st, q, cfg) then
      p.(state := st.(prev := st.prev[q.key := q.odds]))
    else if p.writes == 0 then p.(running := false)
    else
      Progress(AgentState(st.prev[q.key := q.odds], st.log + [PositionOn(strategy, st, q)]), p.writes - 1, true)
  }

  function OnQuotes(strategy: Strategy, p: Progress, quotes: seq<Quote>, cfg: Config): Progress
    decreases |quotes|
  {
    if quotes == [] then p
    else OnQuotes(strategy, OnQuote(strategy, p, quotes[0], cfg), quotes[1..], cfg)
  }

  function OnFetch(strategy: Strategy, p: Progress, fetch: Fetch, cfg: Config): Progress {
    match fetch
    case FetchFailed => p.(running := false)
    case Snapshot(quotes) => OnQuotes(strategy, p, quotes, cfg)
  }

  function OnFetches(strategy: Strategy, p: Progress, fetches: seq<Fetch>, cfg: Config): Progress
    decreases |fetches|
  {
    if fetches == [] || !p.running then p
    else OnFetches(strategy, OnFetch(strategy, p, fetches[0], cfg), fetches[1..], cfg)
  }

  function AfterStep(strategy: Strategy, st: AgentState, fetches: seq<Fetch>, cfg: Config, writes: nat): Progress {
    OnFetches(strategy, Progress(st, writes, true), fetches, cfg)
  }

  lemma {:induction false} StoppedStays(strategy: Strategy, p: Progress, quotes: seq<Quote>, cfg: Config)
    requires !p.running
    ensures OnQuotes(strategy, p, quotes, cfg) == p
    decreases |quotes|
  {
    if quotes != [] {
      StoppedStays(strategy, p, quotes[1..], cfg);
    }
  }

  // ---- FOLLOW ------------------------------------------------------------

  class MatchIntelligence {
    var prevOdds: map<Key, real>
    var log: seq<Logged>

    constructor ()
      ensures State() == INITIAL
    {
      prevOdds, log := map[], [];
    }

    function State(): AgentState
      reads this
    {
      AgentState(prevOdds, log)
    }

    /** `agent_step`; `None` is an early return with an error. */
    method Step(fetches: seq<Fetch>, cfg: Config, writes: nat) returns (positions: Option<seq<Logged>>)
      modifies this
      ensures State() == AfterStep(FollowSharp, old(State()), fetches, cfg, writes).state
      ensures positions.Some? <==> AfterStep(FollowSharp, old(State()), fetches, cfg, writes).running
      ensures positions.Some? ==> log == old(log) + positions.value
    {
      ghost var whole := AfterStep(FollowSharp, State(), fetches, cfg, writes);
      var left := writes;
      var newPositions: seq<Logged> := [];
      for f := 0 to |fetches|
        invariant whole == OnFetches(FollowSharp, Progress(State(), left, true), fetches[f..], cfg)
        invariant log == old(log) + newPositions
      {
        if fetches[f].FetchFailed? {
          return None;
        }
        var quotes := fetches[f].quotes;
        ghost var outer := Progress(State(), left, true);
        for i := 0 to |quotes|
          invariant OnQuotes(FollowSharp, outer, quotes, cfg)
                 == OnQuotes(FollowSharp, Progress(State(), left, true), quotes[i..], cfg)
          invariant log == old(log) + newPositions
        {
          var q := quotes[i];
          if q.key in prevOdds {
            var prevVal := prevOdds[q.key];
            var movePct := MovePct(q.odds, prevVal);
            if AtLeast(movePct, cfg.threshold) {
              var confidence := AgentConfidence(movePct);
              if confidence >= cfg.gate {
                var direction := if q.odds < prevVal then With else Against;
                var position := Logged(PositionId(FollowSharp, |log|), q.key, q.odds, movePct, direction, confidence);
                if left == 0 {
                  StoppedStays(FollowSharp, Progress(State(), 0, false), quotes[i + 1..], cfg);
                  return None;
                }
                left := left - 1;
                log := log + [position];
                newPositions := newPositions + [position];
              }
            }
          }
          prevOdds := prevOdds[q.key := q.odds];
        }
      }
      return Some(newPositions);
    }
  }

  // ---- FADE --------------------------------------------------------------

  class Contrarian {
    var prevOdds: map<Key, real>
    var log: seq<Logged>

    constructor ()
      ensures State() == INITIAL
    {
      prevOdds, log := map[], [];
    }

    function State(): AgentState
      reads this
    {
      AgentState(prevOdds, log)
    }

    /** `agent_step`; it counts the positions instead of collecting them. */
    method Step(fetches: seq<Fetch>, cfg: Config, writes: nat) returns (recorded: Option<nat>)
      modifies this
      ensures State() == AfterStep(FadeSharp, old(State()), fetches, cfg, writes).state
      ensures recorded.Some? <==> AfterStep(FadeSharp, old(State()), fetches, cfg, writes).running
      ensures recorded.Some? ==> recorded.value == |log| - |old(log)|
    {
      ghost var whole := AfterStep(FadeSharp, State(), fetches, cfg, writes);
      var left, count := writes, 0;
      for f := 0 to |fetches|
        invariant whole == OnFetches(FadeSharp, Progress(State(), left, true), fetches[f..], cfg)
        invariant count == |log| - |old(log)|
      {
        if fetches[f].FetchFailed? {
          return None;
        }
        var quotes := fetches[f].quotes;
        ghost var outer := Progress(State(), left, true);
        for i := 0 to |quotes|
          invariant OnQuotes(FadeSharp, outer, quotes, cfg)
                 == OnQuotes(FadeSharp, Progress(State(), left, true), quotes[i..], cfg)
          invariant count == |log| - |old(log)|
        {
          var q := quotes[i];
          if q.key in prevOdds {
            var prevVal := prevOdds[q.key];
            var movePct := MovePct(q.odds, prevVal);
            if AtLeast(movePct, cfg.threshold) {
              var confidence := AgentConfidence(movePct);
              if confidence >= cfg.gate {
                var direction := if q.odds < prevVal then Against else With;
                var position := Logged(PositionId(FadeSharp, |log|), q.key, q.odds, movePct, direction, confidence);
                if left == 0 {
                  StoppedStays(FadeSharp, Progress(State(), 0, false), quotes[i + 1..], cfg);
                  return None;
                }
                left := left - 1;
                log := log + [position];
                count := count + 1;
              }
            }
          }
          prevOdds := prevOdds[q.key := q.odds];
        }
      }
      return Some(count);
    }
  }

  // ---- Lockstep ----------------------------------------------------------

  /** Everything one poll depends on: what the feed delivers and when the disk gives up. */
  datatype Poll = Poll(fetches: seq<Fetch>, writes: nat)

  function AfterPolls(strategy: Strategy, st: AgentState, polls: seq<Poll>, cfg: Config): AgentState
    decreases |polls|
  {
    if polls == [] then st
    else AfterPolls(strategy, AfterStep(strategy, st, polls[0].fetches, cfg, polls[0].writes).state, polls[1..], cfg)
  }

  /** The same bet, taken in opposite directions. */
  predicate Paired(follow: Logged, fade: Logged) {
    && follow.id.agent == FollowSharp && fade.id.agent == FadeSharp
    && follow.id.serial == fade.id.serial
    && follow.key == fade.key
    && follow.odds == fade.odds
    && follow.movePct == fade.movePct
    && follow.confidence == fade.confidence
    && fade.direction == Opposite(follow.direction)
  }

  predicate Mirrored(follow: AgentState, fade: AgentState) {
    && follow.prev == fade.prev
    && |follow.log| == |fade.log|
    && (forall i | 0 <= i < |follow.log| :: Paired(follow.log[i], fade.log[i]))
    && (forall i | 0 <= i < |follow.log| :: follow.log[i].id.serial == i)
  }

  lemma QuoteKeepsMirror(p: Progress, p': Progress, q: Quote, cfg: Config)
    requires Mirrored(p.state, p'.state) && p.writes == p'.writes && p.running == p'.running
    ensures var r, r' := OnQuote(FollowSharp, p, q, cfg), OnQuote(FadeSharp, p', q, cfg);
            Mirrored(r.state, r'.state) && r.writes == r'.writes && r.running == r'.running
  {}

  lemma {:induction false} QuotesKeepMirror(p: Progress, p': Progress, quotes: seq<Quote>, cfg: Config)
    requires Mirrored(p.state, p'.state) && p.writes == p'.writes && p.running == p'.running
    ensures var r, r' := OnQuotes(FollowSharp, p, quotes, cfg), OnQuotes(FadeSharp, p', quotes, cfg);
            Mirrored(r.state, r'.state) && r.writes == r'.writes && r.running == r'.running
    decreases |quotes|
  {
    if quotes != [] {
      QuoteKeepsMirror(p, p', quotes[0], cfg);
      var r, r' := OnQuote(FollowSharp, p, quotes[0], cfg), OnQuote(FadeSharp, p', quotes[0], cfg);
      QuotesKeepMirror(r, r', quotes[1..], cfg);
    }
  }

  lemma {:induction false} FetchesKeepMirror(p: Progress, p': Progress, fetches: seq<Fetch>, cfg: Config)
    requires Mirrored(p.state, p'.state) && p.writes == p'.writes && p.running == p'.running
    ensures var r, r' := OnFetches(FollowSharp, p, fetches, cfg), OnFetches(FadeSharp, p', fetches, cfg);
            Mirrored(r.state, r'.state) && r.running == r'.running
    decreases |fetches|
  {
    if fetches != [] && p.running {
      var fetch := fetches[0];
      if fetch.Snapshot? {
        QuotesKeepMirror(p, p', fetch.quotes, cfg);
      }
      FetchesKeepMirror(OnFetch(FollowSharp, p, fetch, cfg), OnFetch(FadeSharp, p', fetch, cfg), fetches[1..], cfg);
    }
  }

  /** Over every sequence of polls, including polls that fail half-way, two agents fed the same
      snapshots under the same configuration, whose disks accept equally many appends, remember the
      same prices and log the same bets in opposite directions. */
  lemma {:induction false} Lockstep(follow: AgentState, fade: AgentState, polls: seq<Poll>, cfg: Config)
    requires Mirrored(follow, fade)
    ensures Mirrored(AfterPolls(FollowSharp, follow, polls, cfg), AfterPolls(FadeSharp, fade, polls, cfg))
    decreases |polls|
  {
    if polls != [] {
      var w := polls[0].writes;
      FetchesKeepMirror(Progress(follow, w, true), Progress(fade, w, true), polls[0].fetches, cfg);
      Lockstep(AfterStep(FollowSharp, follow, polls[0].fetches, cfg, w).state,
               AfterStep(FadeSharp, fade, polls[0].fetches, cfg, w).state, polls[1..], cfg);
    }
  }

  // ---- What the log means ------------------------------------------------

  /** The most recent price of a key in a stream of quotes. */
  function LastPrice(quotes: seq<Quote>, key: Key): Option<real> {
    if quotes == [] then None
    else
      var last := quotes[|quotes| - 1];
      if last.key == key then Some(last.odds) else LastPrice(quotes[..|quotes| - 1], key)
  }

  /** After the quotes `before`, a quote that moved from the previous one of its key by the threshold,
      confidently enough. */
  predicate IsMove(before: seq<Quote>, q: Quote, cfg: Config) {
    var prev := LastPrice(before, q.key);
    && prev.Some?
    && AtLeast(MovePct(q.odds, prev.value), cfg.threshold)
    && AgentConfidence(MovePct(q.odds, prev.value)) >= cfg.gate
  }

  /** The bets on a stream: one for every move, in order, and nothing else. */
  function BetsOn(strategy: Strategy, quotes: seq<Quote>, cfg: Config): seq<Logged> {
    if quotes == [] then []
    else
      var before, q := quotes[..|quotes| - 1], quotes[|quotes| - 1];
      var earlier := BetsOn(strategy, before, cfg);
      if !IsMove(before, q, cfg) then earlier
      else
        var prev := LastPrice(before, q.key).value;
        var pct := MovePct(q.odds, prev);
        earlier + [Logged(PositionId(strategy, |earlier|), q.key, q.odds, pct,
                          Takes(strategy, q.odds, prev), AgentConfidence(pct))]
  }

  /** The state of an agent that has read the stream. */
  ghost predicate HasRead(strategy: Strategy, st: AgentState, quotes: seq<Quote>, cfg: Config) {
    && st.log == BetsOn(strategy, quotes, cfg)
    && forall k :: if k in st.prev then LastPrice(quotes, k) == Some(st.prev[k]) else LastPrice(quotes, k) == None
  }

  lemma LastPriceAppend(quotes: seq<Quote>, q: Quote, key: Key)
    ensures LastPrice(quotes + [q], key) == if q.key == key then Some(q.odds) else LastPrice(quotes, key)
  {
    assert (quotes + [q])[..|quotes|] == quotes;
  }

  lemma QuoteIsRead(strategy: Strategy, p: Progress, quotes: seq<Quote>, q: Quote, cfg: Config)
    requires p.running && p.writes > 0 && HasRead(strategy, p.state, quotes, cfg)
    ensures var r := OnQuote(strategy, p, q, cfg);
            r.running && r.writes >= p.writes - 1 && HasRead(strategy, r.state, quotes + [q], cfg)
  {
    var r := OnQuote(strategy, p, q, cfg);
    assert (quotes + [q])[..|quotes|] == quotes;
    forall k ensures if k in r.state.prev then LastPrice(quotes + [q], k) == Some(r.state.prev[k])
                     else LastPrice(quotes + [q], k) == None {
      LastPriceAppend(quotes, q, k);
    }
  }

  lemma {:induction false} QuotesAreRead(strategy: Strategy, p: Progress, quotes: seq<Quote>, more: seq<Quote>,
      cfg: Config)
    requires p.running && p.writes >= |more| && HasRead(strategy, p.state, quotes, cfg)
    ensures var r := OnQuotes(strategy, p, more, cfg);
            r.running && r.writes >= p.writes - |more| && HasRead(strategy, r.state, quotes + more, cfg)
    decreases |more|
  {
    if more == [] {
      assert quotes + more == quotes;
    } else {
      QuoteIsRead(strategy, p, quotes, more[0], cfg);
      assert quotes + [more[0]] + more[1..] == quotes + more;
      QuotesAreRead(strategy, OnQuote(strategy, p, more[0], cfg), quotes + [more[0]], more[1..], cfg);
    }
  }

  /** All quotes of a poll in feed order, up to a failed fetch. */
  function QuotesOf(fetches: seq<Fetch>): seq<Quote>
    decreases |fetches|
  {
    if fetches == [] || fetches[0].FetchFailed? then [] else fetches[0].quotes + QuotesOf(fetches[1..])
  }

  function Stream(polls: seq<Poll>): seq<Quote>
    decreases |polls|
  {
    if polls == [] then [] else QuotesOf(polls[0].fetches) + Stream(polls[1..])
  }

  lemma ConcatAssoc(a: seq<Quote>, b: seq<Quote>, c: seq<Quote>)
    ensures a + (b + c) == a + b + c
  {}

  lemma {:induction false} FetchesAreRead(strategy: Strategy, p: Progress, quotes: seq<Quote>, fetches: seq<Fetch>,
      cfg: Config)
    requires p.running && p.writes >= |QuotesOf(fetches)| && HasRead(strategy, p.state, quotes, cfg)
    ensures HasRead(strategy, OnFetches(strategy, p, fetches, cfg).state, quotes + QuotesOf(fetches), cfg)
    decreases |fetches|
  {
    if fetches == [] {
      assert quotes + QuotesOf(fetches) == quotes;
    } else if fetches[0].FetchFailed? {
      assert quotes + QuotesOf(fetches) == quotes;
      var stopped := p.(running := false);
      assert OnFetches(strategy, stopped, fetches[1..], cfg) == stopped;
    } else {
      var first := fetches[0].quotes;
      QuotesAreRead(strategy, p, quotes, first, cfg);
      FetchesAreRead(strategy, OnFetch(strategy, p, fetches[0], cfg), quotes + first, fetches[1..], cfg);
      ConcatAssoc(quotes, first, QuotesOf(fetches[1..]));
    }
  }

  lemma {:induction false} PollsAreRead(strategy: Strategy, st: AgentState, quotes: seq<Quote>, polls: seq<Poll>,
      cfg: Config)
    requires HasRead(strategy, st, quotes, cfg)
    requires forall poll | poll in polls :: poll.writes >= |QuotesOf(poll.fetches)|
    ensures HasRead(strategy, AfterPolls(strategy, st, polls, cfg), quotes + Stream(polls), cfg)
    decreases |polls|
  {
    if polls == [] {
      assert quotes + Stream(polls) == quotes;
    } else {
      var poll := polls[0];
      var st', more := AfterStep(strategy, st, poll.fetches, cfg, poll.writes).state, QuotesOf(poll.fetches);
      assert poll in polls;
      FetchesAreRead(strategy, Progress(st, poll.writes, true), quotes, poll.fetches, cfg);
      PollsAreRead(strategy, st', quotes + more, polls[1..], cfg);
      ConcatAssoc(quotes, more, Stream(polls[1..]));
    }
  }

  /** Over every run whose appends succeed, an agent's log is exactly the bets on the stream of quotes
      it received: one for each quote that moved from the previous quote of its key, across poll
      boundaries and failed fetches alike. */
  lemma LogIsBetsOnStream(strategy: Strategy, polls: seq<Poll>, cfg: Config)
    requires forall poll | poll in polls :: poll.writes >= |QuotesOf(poll.fetches)|
    ensures AfterPolls(strategy, INITIAL, polls, cfg).log == BetsOn(strategy, Stream(polls), cfg)
  {
    PollsAreRead(strategy, INITIAL, [], polls, cfg);
    assert [] + Stream(polls) == Stream(polls);
  }

  /** A bet whose append fails is not forgotten: neither the log nor the remembered price changes, so the move
      is still there when the next poll comes. */
  lemma FailedAppendForgetsNothing(strategy: Strategy, st: AgentState, q: Quote, cfg: Config)
    requires Signals(st, q, cfg)
    ensures OnQuote(strategy, Progress(st, 0, true), q, cfg) == Progress(st, 0, false)
    ensures forall writes: nat | writes > 0 ::
      OnQuote(strategy, Progress(st, writes, true), q, cfg).state.log == st.log + [PositionOn(strategy, st, q)]
  {}

  // ---- Which bets, and which way -----------------------------------------

  /** The price `prev` is the one that key was last quoted at before quote `i`. */
  predicate QuotedLast(quotes: seq<Quote>, i: nat, j: nat)
    requires i < |quotes|
  {
    && j < i && quotes[j].key == quotes[i].key
    && forall k | j < k < i :: quotes[k].key != quotes[i].key
  }

  lemma {:induction false} LastPriceIsLatest(quotes: seq<Quote>, i: nat)
    requires i < |quotes|
    ensures match LastPrice(quotes[..i], quotes[i].key)
            case Some(prev) => exists j: nat :: QuotedLast(quotes, i, j) && quotes[j].odds == prev
            case None => forall j: nat | j < i :: quotes[j].key != quotes[i].key
  {
    PriceOf(quotes[..i], quotes[i].key);
    if LastPrice(quotes[..i], quotes[i].key).Some? {
      var j: nat :| j < i && quotes[..i][j].key == quotes[i].key
        && quotes[..i][j].odds == LastPrice(quotes[..i], quotes[i].key).value
        && forall k | j < k < i :: quotes[..i][k].key != quotes[i].key;
      assert forall k | j < k < i :: quotes[k].key != quotes[i].key by {
        assert forall k | j < k < i :: quotes[..i][k] == quotes[k];
      }
      assert QuotedLast(quotes, i, j);
    } else {
      assert forall j: nat | j < i :: quotes[..i][j] == quotes[j];
    }
  }

  lemma {:induction false} PriceOf(quotes: seq<Quote>, key: Key)
    ensures match LastPrice(quotes, key)
            case Some(prev) => exists j: nat :: j < |quotes| && quotes[j].key == key && quotes[j].odds == prev
                                 && forall k | j < k < |quotes| :: quotes[k].key != key
            case None => forall j: nat | j < |quotes| :: quotes[j].key != key
  {
    if quotes != [] && quotes[|quotes| - 1].key != key {
      var front := quotes[..|quotes| - 1];
      PriceOf(front, key);
      if LastPrice(front, key).Some? {
        var j: nat :| j < |front| && front[j].key == key && front[j].odds == LastPrice(front, key).value
          && forall k | j < k < |front| :: front[k].key != key;
        assert quotes[j] == front[j];
        assert forall k | j < k < |quotes| :: quotes[k].key != key by {
          assert forall k | j < k < |front| :: quotes[k] == front[k];
        }
      } else {
        assert forall j: nat | j < |front| :: quotes[j] == front[j];
      }
    }
  }

  /** Record `r` is the bet of that strategy on the move between quotes `j` and `i`. FOLLOW goes with a price
      that has shortened and against one that has not; FADE does the opposite. */
  predicate BetsOnMove(strategy: Strategy, r: Logged, quotes: seq<Quote>, i: nat, j: nat, cfg: Config)
    requires i < |quotes| && j < |quotes|
  {
    var odds, prev := quotes[i].odds, quotes[j].odds;
    && r.id.agent == strategy && r.key == quotes[i].key && r.odds == odds
    && (strategy == FollowSharp ==> (r.direction == With <==> odds < prev))
    && (strategy == FadeSharp ==> (r.direction == With <==> odds >= prev))
    && (prev != 0.0 ==>
          var move := (odds - prev) / prev * 100.0;
          && r.movePct == Finite(if move >= 0.0 then move else -move)
          && (move >= cfg.threshold || -move >= cfg.threshold)
          && r.confidence == Min(r.movePct.value / 20.0, 0.95))
    && (prev == 0.0 ==> r.movePct == Infinite && odds != 0.0 && r.confidence == 0.95)
    && r.confidence >= cfg.gate
  }

  lemma MoveIsBetOn(strategy: Strategy, quotes: seq<Quote>, cfg: Config)
    requires quotes != [] && IsMove(quotes[..|quotes| - 1], quotes[|quotes| - 1], cfg)
    ensures var bets, n := BetsOn(strategy, quotes, cfg), |quotes| - 1;
            && bets != []
            && exists j: nat ::
                 QuotedLast(quotes, n, j) && BetsOnMove(strategy, bets[|bets| - 1], quotes, n, j, cfg)
  {
    var n := |quotes| - 1;
    LastPriceIsLatest(quotes, n);
    var j: nat :| QuotedLast(quotes, n, j) && quotes[j].odds == LastPrice(quotes[..n], quotes[n].key).value;
    var bets := BetsOn(strategy, quotes, cfg);
    assert BetsOnMove(strategy, bets[|bets| - 1], quotes, n, j, cfg);
  }

  ghost predicate BetsOnSomeMove(strategy: Strategy, r: Logged, quotes: seq<Quote>, cfg: Config) {
    exists i: nat, j: nat ::
      i < |quotes| && QuotedLast(quotes, i, j) && BetsOnMove(strategy, r, quotes, i, j, cfg)
  }

  lemma {:induction false} BetsAreOnMoves(strategy: Strategy, quotes: seq<Quote>, cfg: Config)
    ensures forall r | r in BetsOn(strategy, quotes, cfg) :: BetsOnSomeMove(strategy, r, quotes, cfg)
  {
    if quotes != [] {
      var front, n := quotes[..|quotes| - 1], |quotes| - 1;
      BetsAreOnMoves(strategy, front, cfg);
      forall r | r in BetsOn(strategy, front, cfg) ensures BetsOnSomeMove(strategy, r, quotes, cfg) {
        var i: nat, j: nat :|
          i < |front| && QuotedLast(front, i, j) && BetsOnMove(strategy, r, front, i, j, cfg);
        MoveExtends(strategy, r, quotes, i, j, cfg);
      }
      if IsMove(front, quotes[n], cfg) {
        MoveIsBetOn(strategy, quotes, cfg);
      }
    }
  }

  lemma MoveExtends(strategy: Strategy, r: Logged, quotes: seq<Quote>, i: nat, j: nat, cfg: Config)
    requires quotes != [] && i < |quotes| - 1
    requires QuotedLast(quotes[..|quotes| - 1], i, j) && BetsOnMove(strategy, r, quotes[..|quotes| - 1], i, j, cfg)
    ensures BetsOnSomeMove(strategy, r, quotes, cfg)
  {
    assert forall k | 0 <= k < |quotes| - 1 :: quotes[..|quotes| - 1][k] == quotes[k];
    assert QuotedLast(quotes, i, j) && BetsOnMove(strategy, r, quotes, i, j, cfg);
  }

  /** Over every run whose appends succeed, each logged position is a bet on a move between two quotes of its
      key that follow each other in the feed, and in the direction of its strategy. */
  lemma LoggedBetsAreOnMoves(strategy: Strategy, polls: seq<Poll>, cfg: Config)
    requires forall poll | poll in polls :: poll.writes >= |QuotesOf(poll.fetches)|
    ensures forall r | r in AfterPolls(strategy, INITIAL, polls, cfg).log ::
      BetsOnSomeMove(strategy, r, Stream(polls), cfg)
  {
    LogIsBetsOnStream(strategy, polls, cfg);
    BetsAreOnMoves(strategy, Stream(polls), cfg);
  }

  /** Conversely every sufficient move is bet on: with a previous price that is not zero, exactly if the move
      reaches the threshold either way and is confident enough. */
  lemma MoveIsSufficientIff(before: seq<Quote>, q: Quote, cfg: Config)
    requires LastPrice(before, q.key).Some? && LastPrice(before, q.key).value != 0.0
    ensures var prev := LastPrice(before, q.key).value;
            var move := (q.odds - prev) / prev * 100.0;
            IsMove(before, q, cfg) <==>
              && (move >= cfg.threshold || -move >= cfg.threshold)
              && (if move >= 0.0 then Min(move / 20.0, 0.95) else Min(-move / 20.0, 0.95)) >= cfg.gate
  {}
}

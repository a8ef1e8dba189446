/** The sharp-movement detector and its append-only signal log
    (crates/agents/sharp-movement-detector/src/detector.rs and signal.rs). */
module SignalLog {
  import opened Prelude
  import opened ArenaAgents

  datatype OddsDirection = Shortened | Lengthened

  /** A logged signal; `id` stands for the UUID. */
  datatype Signal = Signal(
    idemKey: string, id: nat, key: Key, oddsNow: real, direction: OddsDirection, correctSoFar: bool)

  /** What the reasoning pass reports of the movement tool. The model calls the tool with arguments of
      its own choice, so nothing ties the report to the quote. */
  datatype Report = Report(isSharp: bool, confidence: real, direction: Option<OddsDirection>)

  /** A quoted price with the idempotency key it would have (fixture, market, selection and five-minute
      bucket) and the report on it, if the pass produces one. */
  datatype Quoted = Quoted(key: Key, odds: real, idemKey: string, report: Option<Report>)

  datatype Feed = Odds(quotes: seq<Quoted>) | FetchError

  /** The in-memory maps, the log on disk, and the number of UUIDs handed out so far. */
  datatype State = State(
    prev: map<Key, real>, open: map<nat, Signal>, seen: set<string>, log: seq<Signal>, issued: nat)

  const EMPTY := State(map[], map[], {}, [], 0)

  datatype Step = Step(state: State, writes: nat, running: bool)

  predicate Confirmed(report: Option<Report>, gate: real) {
    report.Some? && report.value.isSharp && report.value.confidence >= gate && report.value.direction.Some?
  }

  function OnQuoted(p: Step, q: Quoted, gate: real): Step {
    var st := p.state;
    var moved := st.(prev := st.prev[q.key := q.odds]);
    if !p.running then p
    else if q.key !in st.prev then p.(state := moved)
    else if Abs(q.odds - st.prev[q.key]) <= EPSILON then p
    else if q.idemKey in st.seen || !Confirmed(q.report, gate) then p.(state := moved)
    else if p.writes == 0 then p.(state := st.(issued := st.issued + 1), running := false)
    else
      var signal := Signal(q.idemKey, st.issued, q.key, q.odds, q.report.value.direction.value, false);
      Step(State(moved.prev, st.open[st.issued := signal], st.seen + {q.idemKey}, st.log + [signal], st.issued + 1),
           p.writes - 1, true)
  }

  function OnQuotedAll(p: Step, quotes: seq<Quoted>, gate: real): Step
    decreases |quotes|
  {
    if quotes == [] then p else OnQuotedAll(OnQuoted(p, quotes[0], gate), quotes[1..], gate)
  }

  function OnFeeds(p: Step, feeds: seq<Feed>, gate: real): Step
    decreases |feeds|
  {
    if feeds == [] || !p.running then p
    else if feeds[0].FetchError? then p.(running := false)
    else OnFeeds(OnQuotedAll(p, feeds[0].quotes, gate), feeds[1..], gate)
  }

  predicate StillMoving(s: Signal, current: real) {
    match s.direction
    case Shortened => current <= s.oddsNow
    case Lengthened => current >= s.oddsNow
  }

  /** One open signal: flip the flag in memory, then try to append the new version. */
  function Update(st: State, id: nat, ok: bool): State {
    if id !in st.open || st.open[id].key !in st.prev then st
    else
      var s := st.open[id];
      var still := StillMoving(s, st.prev[s.key]);
      if still == s.correctSoFar then st
      else
        var s' := s.(correctSoFar := still);
        st.(open := st.open[id := s'], log := if ok then st.log + [s'] else st.log)
  }

  /** The updates in the order in which the hash map happens to yield the signals; `ok` says which of
      the appends succeed. */
  function UpdateAll(st: State, order: seq<nat>, ok: nat -> bool): State
    decreases |order|
  {
    if order == [] then st else UpdateAll(Update(st, order[0], ok(order[0])), order[1..], ok)
  }

  datatype Poll = Poll(feeds: seq<Feed>, writes: nat, order: seq<nat>, ok: nat -> bool)

  /** A poll: without live fixtures it ends at once, and after an error it skips the updates. */
  function AfterPoll(st: State, poll: Poll, gate: real): State {
    var p := OnFeeds(Step(st, poll.writes, true), poll.feeds, gate);
    if poll.feeds == [] then st
    else if p.running then UpdateAll(p.state, poll.order, poll.ok)
    else p.state
  }

  function KeysOf(log: seq<Signal>): set<string> {
    set r | r in log :: r.idemKey
  }

  /** A new process: only the log survives, and the keys are reloaded from it. */
  function AfterRestart(st: State): State {
    State(map[], map[], KeysOf(st.log), st.log, st.issued)
  }

  class Detector {
    var prevOdds: map<Key, real>
    var openSignals: map<nat, Signal>
    var seen: set<string>
    var log: seq<Signal>
    var issued: nat

    constructor ()
      ensures Current() == EMPTY
    {
      prevOdds, openSignals, seen, log, issued := map[], map[], {}, [], 0;
    }

    function Current(): State
      reads this
    {
      State(prevOdds, openSignals, seen, log, issued)
    }

    /** `detector_step`; `None` is an early return with an error. */
    method Run(poll: Poll, gate: real) returns (signals: Option<nat>)
      modifies this
      ensures Current() == AfterPoll(old(Current()), poll, gate)
      ensures signals.Some? <==> OnFeeds(Step(old(Current()), poll.writes, true), poll.feeds, gate).running
      ensures signals.Some? ==> signals.value == issued - old(issued)
    {
      var feeds := poll.feeds;
      if feeds == [] {
        return Some(0);
      }
      ghost var whole := OnFeeds(Step(Current(), poll.writes, true), feeds, gate);
      var left, count := poll.writes, 0;
      for f := 0 to |feeds|
        invariant whole == OnFeeds(Step(Current(), left, true), feeds[f..], gate)
        invariant count == issued - old(issued)
      {
        if feeds[f].FetchError? {
          return None;
        }
        var quotes := feeds[f].quotes;
        ghost var inner := OnQuotedAll(Step(Current(), left, true), quotes, gate);
        for i := 0 to |quotes|
          invariant inner == OnQuotedAll(Step(Current(), left, true), quotes[i..], gate)
          invariant count == issued - old(issued)
        {
          var ok;
          left, count, ok := Examine(quotes[i], gate, left, count);
          if !ok {
            AbortedStays(Step(Current(), left, false), quotes[i + 1..], gate);
            return None;
          }
        }
      }
      UpdateOpenSignals(poll.order, poll.ok);
      return Some(count);
    }

    /** The body of the innermost loop: one quote. */
    method Examine(q: Quoted, gate: real, writes: nat, signals: nat) returns (left: nat, count: nat, ok: bool)
      modifies this
      ensures Step(Current(), left, ok) == OnQuoted(Step(old(Current()), writes, true), q, gate)
      ensures ok ==> count - signals == issued - old(issued)
    {
      left, count, ok := writes, signals, true;
      if q.key !in prevOdds {
        prevOdds := prevOdds[q.key := q.odds];
        return;
      }
      if Abs(q.odds - prevOdds[q.key]) <= EPSILON {
        return;
      }
      if q.idemKey in seen {
        prevOdds := prevOdds[q.key := q.odds];
        return;
      }
      if q.report.None? {
        prevOdds := prevOdds[q.key := q.odds];
        return;
      }
      if !q.report.value.isSharp || q.report.value.confidence < gate {
        prevOdds := prevOdds[q.key := q.odds];
        return;
      }
      if q.report.value.direction.None? {
        prevOdds := prevOdds[q.key := q.odds];
        return;
      }
      var signal := Signal(q.idemKey, issued, q.key, q.odds, q.report.value.direction.value, false);
      issued := issued + 1;
      if left == 0 {
        ok := false;
        return;
      }
      left := left - 1;
      log := log + [signal];
      seen := seen + {q.idemKey};
      openSignals := openSignals[signal.id := signal];
      count := count + 1;
      prevOdds := prevOdds[q.key := q.odds];
    }

    /** `update_open_signals`. */
    method UpdateOpenSignals(order: seq<nat>, ok: nat -> bool)
      modifies this`openSignals, this`log
      ensures Current() == UpdateAll(old(Current()), order, ok)
    {
      ghost var whole := UpdateAll(Current(), order, ok);
      for i := 0 to |order|
        invariant whole == UpdateAll(Current(), order[i..], ok)
      {
        var id := order[i];
        if id in openSignals && openSignals[id].key in prevOdds {
          var signal := openSignals[id];
          var current := prevOdds[signal.key];
          var still := match signal.direction
            case Shortened => current <= signal.oddsNow
            case Lengthened => current >= signal.oddsNow;
          if still != signal.correctSoFar {
            signal := signal.(correctSoFar := still);
            openSignals := openSignals[id := signal];
            if ok(id) {
              log := log + [signal];
            }
          }
        }
      }
    }

    /** The start of a new process on the same log. */
    method Restart()
      modifies this
      ensures Current() == AfterRestart(old(Current()))
    {
      prevOdds, openSignals := map[], map[];
      seen := KeysOf(log);
    }
  }

  lemma {:induction false} AbortedStays(p: Step, quotes: seq<Quoted>, gate: real)
    requires !p.running
    ensures OnQuotedAll(p, quotes, gate) == p
    decreases |quotes|
  {
    if quotes != [] {
      AbortedStays(p, quotes[1..], gate);
    }
  }

  // ---- What every run keeps ----------------------------------------------

  /** Replay: the last record of a signal wins. */
  function LastRecord(log: seq<Signal>, id: nat): Option<Signal> {
    if log == [] then None
    else if log[|log| - 1].id == id then Some(log[|log| - 1])
    else LastRecord(log[..|log| - 1], id)
  }

  /** The replayed version of an open signal, up to the flag that updates flip. */
  predicate Replays(st: State, id: nat)
    requires id in st.open
  {
    var r := LastRecord(st.log, id);
    r.Some? && r.value.(correctSoFar := st.open[id].correctSoFar) == st.open[id]
  }

  predicate SharedIds(log: seq<Signal>) {
    forall r, s | r in log && s in log && r.idemKey == s.idemKey :: r.id == s.id
  }

  predicate OpenReplays(st: State) {
    forall id | id in st.open :: st.open[id].id == id && st.open[id].key in st.prev && Replays(st, id)
  }

  ghost predicate Inv(st: State) {
    && st.seen == KeysOf(st.log)
    && SharedIds(st.log)
    && (forall r | r in st.log :: r.id < st.issued)
    && OpenReplays(st)
  }

  /** Replay reproduces the open signals exactly. */
  predicate Synced(st: State) {
    forall id | id in st.open :: LastRecord(st.log, id) == Some(st.open[id])
  }

  lemma {:induction false} LastRecordIn(log: seq<Signal>, id: nat)
    ensures var r := LastRecord(log, id); r.Some? ==> r.value in log && r.value.id == id
  {
    if log != [] && log[|log| - 1].id != id {
      LastRecordIn(log[..|log| - 1], id);
    }
  }

  lemma LastRecordAppend(log: seq<Signal>, s: Signal, id: nat)
    ensures LastRecord(log + [s], id) == if s.id == id then Some(s) else LastRecord(log, id)
  {
    assert (log + [s])[..|log|] == log;
  }

  lemma KeysAppend(log: seq<Signal>, s: Signal)
    ensures KeysOf(log + [s]) == KeysOf(log) + {s.idemKey}
  {
    assert s in log + [s];
    forall k | k in KeysOf(log) ensures k in KeysOf(log + [s]) {
      var r :| r in log && r.idemKey == k;
      assert r in log + [s];
    }
  }

  /** Storing a signal in memory and appending it to the log keeps replay in step with memory. */
  lemma AppendKeepsOpen(st: State, st': State, s: Signal)
    requires OpenReplays(st) && st'.log == st.log + [s] && st'.open == st.open[s.id := s]
    requires s.key in st'.prev && st.prev.Keys <= st'.prev.Keys
    ensures OpenReplays(st') && (Synced(st) ==> Synced(st'))
  {
    forall id | id in st'.open
      ensures st'.open[id].id == id && st'.open[id].key in st'.prev && Replays(st', id)
      ensures Synced(st) ==> LastRecord(st'.log, id) == Some(st'.open[id])
    {
      LastRecordAppend(st.log, s, id);
      if id != s.id { assert id in st.open && Replays(st, id); }
    }
  }

  /** Flipping a flag in memory alone leaves replay right up to the flag. */
  lemma FlagKeepsOpen(st: State, st': State, s: Signal)
    requires OpenReplays(st) && st'.log == st.log && st'.open == st.open[s.id := s] && st'.prev == st.prev
    requires s.id in st.open && s == st.open[s.id].(correctSoFar := s.correctSoFar)
    ensures OpenReplays(st')
  {
    forall i | i in st'.open ensures st'.open[i].id == i && st'.open[i].key in st'.prev && Replays(st', i) {
      assert i in st.open && Replays(st, i);
    }
  }

  lemma AppendKeepsLog(log: seq<Signal>, s: Signal)
    requires SharedIds(log) && forall r | r in log && r.idemKey == s.idemKey :: r.id == s.id
    ensures SharedIds(log + [s]) && KeysOf(log + [s]) == KeysOf(log) + {s.idemKey}
  {
    KeysAppend(log, s);
  }

  lemma QuotedKeepsInv(p: Step, q: Quoted, gate: real)
    requires Inv(p.state)
    ensures var st := OnQuoted(p, q, gate).state; Inv(st) && (Synced(p.state) ==> Synced(st))
  {
    var st, st' := p.state, OnQuoted(p, q, gate).state;
    if st'.log != st.log {
      var s := Signal(q.idemKey, st.issued, q.key, q.odds, q.report.value.direction.value, false);
      assert forall r | r in st.log :: r.idemKey in KeysOf(st.log);
      AppendKeepsLog(st.log, s);
      AppendKeepsOpen(st, st', s);
    } else {
      assert forall id | id in st.open :: Replays(st, id) ==> Replays(st', id);
    }
  }

  lemma {:induction false} QuotedAllKeepsInv(p: Step, quotes: seq<Quoted>, gate: real)
    requires Inv(p.state)
    ensures var st := OnQuotedAll(p, quotes, gate).state; Inv(st) && (Synced(p.state) ==> Synced(st))
    decreases |quotes|
  {
    if quotes != [] {
      QuotedKeepsInv(p, quotes[0], gate);
      QuotedAllKeepsInv(OnQuoted(p, quotes[0], gate), quotes[1..], gate);
    }
  }

  lemma {:induction false} FeedsKeepInv(p: Step, feeds: seq<Feed>, gate: real)
    requires Inv(p.state)
    ensures var st := OnFeeds(p, feeds, gate).state; Inv(st) && (Synced(p.state) ==> Synced(st))
    decreases |feeds|
  {
    if feeds != [] && p.running && !feeds[0].FetchError? {
      QuotedAllKeepsInv(p, feeds[0].quotes, gate);
      FeedsKeepInv(OnQuotedAll(p, feeds[0].quotes, gate), feeds[1..], gate);
    }
  }

  /** An open signal has a record, so its key is known and belongs to it. */
  lemma OpenIsLogged(st: State, id: nat)
    requires Inv(st) && id in st.open
    ensures var s := st.open[id];
            && s.id == id < st.issued && s.key in st.prev && s.idemKey in KeysOf(st.log)
            && forall r | r in st.log && r.idemKey == s.idemKey :: r.id == id
  {
    assert Replays(st, id);
    LastRecordIn(st.log, id);
  }

  lemma UpdateKeepsInv(st: State, id: nat, ok: bool)
    requires Inv(st)
    ensures Inv(Update(st, id, ok)) && (Synced(st) && ok ==> Synced(Update(st, id, ok)))
  {
    var st' := Update(st, id, ok);
    if st' != st {
      var s' := st'.open[id];
      OpenIsLogged(st, id);
      if ok {
        AppendKeepsLog(st.log, s');
        AppendKeepsOpen(st, st', s');
      } else {
        FlagKeepsOpen(st, st', s');
      }
    }
  }

  lemma {:induction false} UpdateAllKeepsInv(st: State, order: seq<nat>, ok: nat -> bool)
    requires Inv(st)
    ensures var st' := UpdateAll(st, order, ok);
            Inv(st') && (Synced(st) && (forall id :: ok(id)) ==> Synced(st'))
    decreases |order|
  {
    if order != [] {
      UpdateKeepsInv(st, order[0], ok(order[0]));
      UpdateAllKeepsInv(Update(st, order[0], ok(order[0])), order[1..], ok);
    }
  }

  /** Anything that can happen to the detector. */
  datatype Event = Polled(poll: Poll) | Restarted

  function AfterEvent(st: State, e: Event, gate: real): State {
    match e
    case Polled(poll) => AfterPoll(st, poll, gate)
    case Restarted => AfterRestart(st)
  }

  function AfterEvents(st: State, events: seq<Event>, gate: real): State
    decreases |events|
  {
    if events == [] then st else AfterEvents(AfterEvent(st, events[0], gate), events[1..], gate)
  }

  ghost predicate NoUpdateFailed(e: Event) {
    e.Polled? ==> forall id :: e.poll.ok(id)
  }

  /** Crash-restart safety. Over every interleaving of polls, half-way aborts and restarts: the keys in
      memory are the keys on disk, records that share a key share their signal, and last-record-wins
      replay reproduces every open signal up to its flag; exactly, while no update append failed. */
  lemma {:induction false} RunKeepsInv(st: State, events: seq<Event>, gate: real)
    requires Inv(st)
    ensures Inv(AfterEvents(st, events, gate))
    ensures Synced(st) && (forall e | e in events :: NoUpdateFailed(e)) ==> Synced(AfterEvents(st, events, gate))
    decreases |events|
  {
    if events != [] {
      var e := events[0];
      if e.Polled? {
        var p := OnFeeds(Step(st, e.poll.writes, true), e.poll.feeds, gate);
        FeedsKeepInv(Step(st, e.poll.writes, true), e.poll.feeds, gate);
        UpdateAllKeepsInv(p.state, e.poll.order, e.poll.ok);
      }
      assert e in events;
      RunKeepsInv(AfterEvent(st, e, gate), events[1..], gate);
    }
  }

  /** Reloading after a crash, at any point of any run, reproduces the set of seen keys. */
  lemma RestartReproducesSeen(events: seq<Event>, gate: real)
    ensures var st := AfterEvents(EMPTY, events, gate); AfterRestart(st).seen == st.seen
  {
    assert KeysOf([]) == {};
    RunKeepsInv(EMPTY, events, gate);
  }

  // ---- When a prediction turns correct -----------------------------------

  predicate UpToDate(st: State, id: nat)
    requires id in st.open
  {
    st.open[id].key in st.prev ==> st.open[id].correctSoFar == StillMoving(st.open[id], st.prev[st.open[id].key])
  }

  lemma {:induction false} UpdateAllIsCurrent(st: State, order: seq<nat>, ok: nat -> bool, done: set<nat>)
    requires forall id | id in done && id in st.open :: UpToDate(st, id)
    ensures var st' := UpdateAll(st, order, ok);
            && st'.prev == st.prev && st'.open.Keys == st.open.Keys
            && (forall id | id in st.open :: st'.open[id] == st.open[id].(correctSoFar := st'.open[id].correctSoFar))
            && (forall id | id in st'.open && (id in done || id in order) :: UpToDate(st', id))
    decreases |order|
  {
    if order != [] {
      var st1 := Update(st, order[0], ok(order[0]));
      UpdateAllIsCurrent(st1, order[1..], ok, done + {order[0]});
    }
  }

  /** The comparison is weak and runs at the end of the poll that creates a signal. So after every poll
      that completes, each open signal whose price has not moved since is already correct, a signal
      born in that very poll included; nothing waits for the next poll. */
  lemma SteadySignalIsCorrectInItsOwnPoll(st: State, poll: Poll, gate: real)
    requires poll.feeds != []
    requires var p := OnFeeds(Step(st, poll.writes, true), poll.feeds, gate);
             p.running && forall id | id in p.state.open :: id in poll.order
    ensures var st' := AfterPoll(st, poll, gate);
            forall id | id in st'.open && st'.open[id].key in st'.prev ::
              var s, current := st'.open[id], st'.prev[st'.open[id].key];
              && (s.direction == Shortened ==> (s.correctSoFar <==> current <= s.oddsNow))
              && (s.direction == Lengthened ==> (s.correctSoFar <==> current >= s.oddsNow))
              && (current == s.oddsNow ==> s.correctSoFar)
  {
    var p := OnFeeds(Step(st, poll.writes, true), poll.feeds, gate);
    UpdateAllIsCurrent(p.state, poll.order, poll.ok, {});
  }

  // ---- Which quotes become signals ---------------------------------------

  /** A quote that was looked at, with the state it met and the appends that were left. */
  datatype Visit = Visit(quote: Quoted, before: State, writes: nat)

  function VisitsOf(p: Step, quotes: seq<Quoted>, gate: real): seq<Visit>
    decreases |quotes|
  {
    if quotes == [] || !p.running then []
    else [Visit(quotes[0], p.state, p.writes)] + VisitsOf(OnQuoted(p, quotes[0], gate), quotes[1..], gate)
  }

  function VisitsOfFeeds(p: Step, feeds: seq<Feed>, gate: real): seq<Visit>
    decreases |feeds|
  {
    if feeds == [] || !p.running || feeds[0].FetchError? then []
    else
      VisitsOf(p, feeds[0].quotes, gate)
      + VisitsOfFeeds(OnQuotedAll(p, feeds[0].quotes, gate), feeds[1..], gate)
  }

  function VisitsOfEvent(st: State, e: Event, gate: real): seq<Visit> {
    match e
    case Polled(poll) => VisitsOfFeeds(Step(st, poll.writes, true), poll.feeds, gate)
    case Restarted => []
  }

  function VisitsOfEvents(st: State, events: seq<Event>, gate: real): seq<Visit>
    decreases |events|
  {
    if events == [] then []
    else
      VisitsOfEvent(st, events[0], gate)
      + VisitsOfEvents(AfterEvent(st, events[0], gate), events[1..], gate)
  }

  /** The quote calls for a signal: its price has left the remembered one, its key is new to the log, and its
      report is there, sharp, confident enough, and gives a direction. */
  ghost predicate CallsForSignal(v: Visit, gate: real) {
    && v.quote.key in v.before.prev
    && (v.quote.odds - v.before.prev[v.quote.key] > EPSILON || v.before.prev[v.quote.key] - v.quote.odds > EPSILON)
    && (forall r | r in v.before.log :: r.idemKey != v.quote.idemKey)
    && v.quote.report.Some?
    && v.quote.report.value.isSharp
    && v.quote.report.value.confidence >= gate
    && v.quote.report.value.direction.Some?
  }

  /** The signal it calls for: the quote as it stands, not yet judged. */
  predicate OpensSignal(r: Signal, v: Visit)
    requires v.quote.report.Some? && v.quote.report.value.direction.Some?
  {
    var q := v.quote;
    r == Signal(q.idemKey, v.before.issued, q.key, q.odds, q.report.value.direction.value, false)
  }

  /** One quote: it is logged, and held open, exactly if it calls for a signal and an append is left. A failed
      append ends the step and leaves everything as it was but for the identifier it drew. Otherwise the price
      is remembered, except that a re-send to within a machine epsilon leaves the remembered price where it was. */
  lemma QuoteIsLoggedIff(p: Step, q: Quoted, gate: real)
    requires p.running && Inv(p.state)
    ensures var v, next := Visit(q, p.state, p.writes), OnQuoted(p, q, gate);
            && (CallsForSignal(v, gate) && p.writes > 0 ==>
                  next.running && next.state.log != [] && OpensSignal(next.state.log[|next.state.log| - 1], v)
                  && next.state.log[..|next.state.log| - 1] == p.state.log
                  && next.state.open == p.state.open[p.state.issued := next.state.log[|next.state.log| - 1]])
            && (!(CallsForSignal(v, gate) && p.writes > 0) ==> next.state.log == p.state.log)
            && (next.running <==> !CallsForSignal(v, gate) || p.writes > 0)
            && (!next.running ==> next.state == p.state.(issued := p.state.issued + 1))
            && (next.running ==>
                  && q.key in next.state.prev
                  && next.state.prev[q.key] ==
                       (if q.key in p.state.prev && -EPSILON <= q.odds - p.state.prev[q.key] <= EPSILON
                        then p.state.prev[q.key] else q.odds)
                  && forall k | k != q.key ::
                       (k in next.state.prev <==> k in p.state.prev)
                       && (k in p.state.prev ==> next.state.prev[k] == p.state.prev[k]))
            && next.state.issued == p.state.issued + (if CallsForSignal(v, gate) then 1 else 0)
  {
    assert q.idemKey in p.state.seen <==> exists r :: r in p.state.log && r.idemKey == q.idemKey;
  }

  /** A record stems from a visit that called for it, up to the flag that later updates flip. */
  ghost predicate StemsFrom(r: Signal, visits: seq<Visit>, gate: real) {
    exists v :: v in visits && CallsForSignal(v, gate) && OpensSignal(r.(correctSoFar := false), v)
  }

  ghost predicate AllStem(log: seq<Signal>, visits: seq<Visit>, gate: real) {
    forall r | r in log :: StemsFrom(r, visits, gate)
  }

  lemma StemsFromMore(log: seq<Signal>, visits: seq<Visit>, more: seq<Visit>, gate: real)
    requires AllStem(log, visits, gate)
    ensures AllStem(log, visits + more, gate)
  {
    forall r | r in log ensures StemsFrom(r, visits + more, gate) {
      var v :| v in visits && CallsForSignal(v, gate) && OpensSignal(r.(correctSoFar := false), v);
      assert v in visits + more;
    }
  }

  lemma QuoteStems(p: Step, q: Quoted, gate: real, visits: seq<Visit>)
    requires p.running && Inv(p.state) && AllStem(p.state.log, visits, gate)
    ensures AllStem(OnQuoted(p, q, gate).state.log, visits + [Visit(q, p.state, p.writes)], gate)
  {
    var v, log := Visit(q, p.state, p.writes), OnQuoted(p, q, gate).state.log;
    QuoteIsLoggedIff(p, q, gate);
    StemsFromMore(p.state.log, visits, [v], gate);
    assert v in visits + [v];
    if CallsForSignal(v, gate) && p.writes > 0 {
      var r := log[|log| - 1];
      assert log == p.state.log + [r];
      assert r.(correctSoFar := false) == r;
      assert StemsFrom(r, visits + [v], gate);
    }
  }

  lemma {:induction false} QuotesStem(p: Step, quotes: seq<Quoted>, gate: real, visits: seq<Visit>)
    requires Inv(p.state) && AllStem(p.state.log, visits, gate)
    ensures AllStem(OnQuotedAll(p, quotes, gate).state.log, visits + VisitsOf(p, quotes, gate), gate)
    decreases |quotes|
  {
    if quotes == [] || !p.running {
      AbortedStaysUnlessRunning(p, quotes, gate);
      assert visits + [] == visits;
    } else {
      var v, next := Visit(quotes[0], p.state, p.writes), OnQuoted(p, quotes[0], gate);
      QuoteStems(p, quotes[0], gate, visits);
      QuotedKeepsInv(p, quotes[0], gate);
      QuotesStem(next, quotes[1..], gate, visits + [v]);
      assert visits + [v] + VisitsOf(next, quotes[1..], gate) == visits + VisitsOf(p, quotes, gate);
    }
  }

  lemma AbortedStaysUnlessRunning(p: Step, quotes: seq<Quoted>, gate: real)
    requires quotes == [] || !p.running
    ensures OnQuotedAll(p, quotes, gate) == p
  {
    if !p.running { AbortedStays(p, quotes, gate); }
  }

  lemma {:induction false} FeedsStem(p: Step, feeds: seq<Feed>, gate: real, visits: seq<Visit>)
    requires Inv(p.state) && AllStem(p.state.log, visits, gate)
    ensures AllStem(OnFeeds(p, feeds, gate).state.log, visits + VisitsOfFeeds(p, feeds, gate), gate)
    decreases |feeds|
  {
    if feeds == [] || !p.running || feeds[0].FetchError? {
      assert visits + [] == visits;
    } else {
      var first, next := VisitsOf(p, feeds[0].quotes, gate), OnQuotedAll(p, feeds[0].quotes, gate);
      QuotesStem(p, feeds[0].quotes, gate, visits);
      QuotedAllKeepsInv(p, feeds[0].quotes, gate);
      FeedsStem(next, feeds[1..], gate, visits + first);
      assert visits + first + VisitsOfFeeds(next, feeds[1..], gate) == visits + VisitsOfFeeds(p, feeds, gate);
    }
  }

  lemma UpdateStems(st: State, id: nat, ok: bool, visits: seq<Visit>, gate: real)
    requires Inv(st) && AllStem(st.log, visits, gate)
    ensures AllStem(Update(st, id, ok).log, visits, gate)
  {
    var st' := Update(st, id, ok);
    if st'.log != st.log {
      assert Replays(st, id);
      LastRecordIn(st.log, id);
      var r, s' := LastRecord(st.log, id).value, st'.open[id];
      assert r.(correctSoFar := false) == s'.(correctSoFar := false);
      assert StemsFrom(r, visits, gate);
      assert StemsFrom(s', visits, gate);
      assert st'.log == st.log + [s'];
    }
  }

  lemma {:induction false} UpdatesStem(st: State, order: seq<nat>, ok: nat -> bool, visits: seq<Visit>, gate: real)
    requires Inv(st) && AllStem(st.log, visits, gate)
    ensures AllStem(UpdateAll(st, order, ok).log, visits, gate)
    decreases |order|
  {
    if order != [] {
      UpdateStems(st, order[0], ok(order[0]), visits, gate);
      UpdateKeepsInv(st, order[0], ok(order[0]));
      UpdatesStem(Update(st, order[0], ok(order[0])), order[1..], ok, visits, gate);
    }
  }

  lemma PollStems(st: State, poll: Poll, gate: real, visits: seq<Visit>)
    requires Inv(st) && AllStem(st.log, visits, gate)
    ensures AllStem(AfterPoll(st, poll, gate).log,
      visits + VisitsOfFeeds(Step(st, poll.writes, true), poll.feeds, gate), gate)
    ensures Inv(AfterPoll(st, poll, gate))
  {
    var start := Step(st, poll.writes, true);
    var p, all := OnFeeds(start, poll.feeds, gate), visits + VisitsOfFeeds(start, poll.feeds, gate);
    FeedsStem(start, poll.feeds, gate, visits);
    FeedsKeepInv(start, poll.feeds, gate);
    UpdatesStem(p.state, poll.order, poll.ok, all, gate);
    UpdateAllKeepsInv(p.state, poll.order, poll.ok);
  }

  lemma EventStems(st: State, e: Event, gate: real, visits: seq<Visit>)
    requires Inv(st) && AllStem(st.log, visits, gate)
    ensures AllStem(AfterEvent(st, e, gate).log, visits + VisitsOfEvent(st, e, gate), gate)
    ensures Inv(AfterEvent(st, e, gate))
  {
    if e.Polled? {
      PollStems(st, e.poll, gate, visits);
    } else {
      assert visits + [] == visits;
    }
  }

  /** Over every run of polls, aborts and restarts, every record in the log stems from a quote that called for
      a signal when it was looked at. */
  lemma {:induction false} EveryRecordStems(st: State, events: seq<Event>, gate: real, visits: seq<Visit>)
    requires Inv(st) && AllStem(st.log, visits, gate)
    ensures AllStem(AfterEvents(st, events, gate).log, visits + VisitsOfEvents(st, events, gate), gate)
    decreases |events|
  {
    if events == [] {
      assert visits + [] == visits;
    } else {
      var e, next := events[0], AfterEvent(st, events[0], gate);
      var first := VisitsOfEvent(st, e, gate);
      EventStems(st, e, gate, visits);
      EveryRecordStems(next, events[1..], gate, visits + first);
      VisitsAssoc(visits, first, VisitsOfEvents(next, events[1..], gate));
    }
  }

  lemma VisitsAssoc(a: seq<Visit>, b: seq<Visit>, c: seq<Visit>)
    ensures a + b + c == a + (b + c)
  {}

  /** Nothing logged is ever lost. */
  ghost predicate Extends(log: seq<Signal>, log': seq<Signal>) { log <= log' }

  lemma {:induction false} QuotesExtend(p: Step, quotes: seq<Quoted>, gate: real)
    requires Inv(p.state)
    ensures Extends(p.state.log, OnQuotedAll(p, quotes, gate).state.log)
    decreases |quotes|
  {
    if quotes != [] {
      if p.running { QuoteIsLoggedIff(p, quotes[0], gate); }
      QuotedKeepsInv(p, quotes[0], gate);
      QuotesExtend(OnQuoted(p, quotes[0], gate), quotes[1..], gate);
    }
  }

  lemma {:induction false} FeedsExtend(p: Step, feeds: seq<Feed>, gate: real)
    requires Inv(p.state)
    ensures Extends(p.state.log, OnFeeds(p, feeds, gate).state.log)
    decreases |feeds|
  {
    if feeds != [] && p.running && !feeds[0].FetchError? {
      QuotesExtend(p, feeds[0].quotes, gate);
      QuotedAllKeepsInv(p, feeds[0].quotes, gate);
      FeedsExtend(OnQuotedAll(p, feeds[0].quotes, gate), feeds[1..], gate);
    }
  }

  lemma {:induction false} UpdatesExtend(st: State, order: seq<nat>, ok: nat -> bool)
    ensures Extends(st.log, UpdateAll(st, order, ok).log)
    decreases |order|
  {
    if order != [] {
      UpdatesExtend(Update(st, order[0], ok(order[0])), order[1..], ok);
    }
  }

  lemma {:induction false} EventsExtend(st: State, events: seq<Event>, gate: real)
    requires Inv(st)
    ensures Extends(st.log, AfterEvents(st, events, gate).log)
    decreases |events|
  {
    if events != [] {
      EventExtends(st, events[0], gate);
      EventsExtend(AfterEvent(st, events[0], gate), events[1..], gate);
    }
  }

  lemma EventExtends(st: State, e: Event, gate: real)
    requires Inv(st)
    ensures Extends(st.log, AfterEvent(st, e, gate).log) && Inv(AfterEvent(st, e, gate))
  {
    if e.Polled? {
      var start := Step(st, e.poll.writes, true);
      var p := OnFeeds(start, e.poll.feeds, gate);
      FeedsExtend(start, e.poll.feeds, gate);
      FeedsKeepInv(start, e.poll.feeds, gate);
      UpdatesExtend(p.state, e.poll.order, e.poll.ok);
      UpdateAllKeepsInv(p.state, e.poll.order, e.poll.ok);
    }
  }

  /** The signal that a visit calls for is in the log. */
  ghost predicate IsLogged(v: Visit, log: seq<Signal>)
    requires v.quote.report.Some? && v.quote.report.value.direction.Some?
  {
    exists r :: r in log && OpensSignal(r, v)
  }

  /** Every visit that calls for a signal and has an append left is answered in the log. */
  ghost predicate AllLogged(visits: seq<Visit>, log: seq<Signal>, gate: real) {
    forall v | v in visits && CallsForSignal(v, gate) && v.writes > 0 :: IsLogged(v, log)
  }

  lemma LoggedInLonger(visits: seq<Visit>, log: seq<Signal>, log': seq<Signal>, gate: real)
    requires AllLogged(visits, log, gate) && Extends(log, log')
    ensures AllLogged(visits, log', gate)
  {
    forall v | v in visits && CallsForSignal(v, gate) && v.writes > 0 ensures IsLogged(v, log') {
      var r :| r in log && OpensSignal(r, v);
      assert r in log';
    }
  }

  lemma {:induction false} QuotesAreLogged(p: Step, quotes: seq<Quoted>, gate: real)
    requires Inv(p.state)
    ensures AllLogged(VisitsOf(p, quotes, gate), OnQuotedAll(p, quotes, gate).state.log, gate)
    decreases |quotes|
  {
    if quotes != [] && p.running {
      var v, next := Visit(quotes[0], p.state, p.writes), OnQuoted(p, quotes[0], gate);
      QuoteIsLoggedIff(p, quotes[0], gate);
      QuotedKeepsInv(p, quotes[0], gate);
      assert AllLogged([v], next.state.log, gate);
      QuotesExtend(next, quotes[1..], gate);
      LoggedInLonger([v], next.state.log, OnQuotedAll(p, quotes, gate).state.log, gate);
      QuotesAreLogged(next, quotes[1..], gate);
      LoggedTogether([v], VisitsOf(next, quotes[1..], gate), OnQuotedAll(p, quotes, gate).state.log, gate);
    }
  }

  lemma LoggedTogether(a: seq<Visit>, b: seq<Visit>, log: seq<Signal>, gate: real)
    requires AllLogged(a, log, gate) && AllLogged(b, log, gate)
    ensures AllLogged(a + b, log, gate)
  {}

  lemma {:induction false} FeedsAreLogged(p: Step, feeds: seq<Feed>, gate: real)
    requires Inv(p.state)
    ensures AllLogged(VisitsOfFeeds(p, feeds, gate), OnFeeds(p, feeds, gate).state.log, gate)
    decreases |feeds|
  {
    if feeds != [] && p.running && !feeds[0].FetchError? {
      var next, log := OnQuotedAll(p, feeds[0].quotes, gate), OnFeeds(p, feeds, gate).state.log;
      QuotesAreLogged(p, feeds[0].quotes, gate);
      QuotedAllKeepsInv(p, feeds[0].quotes, gate);
      FeedsExtend(next, feeds[1..], gate);
      LoggedInLonger(VisitsOf(p, feeds[0].quotes, gate), next.state.log, log, gate);
      FeedsAreLogged(next, feeds[1..], gate);
      LoggedTogether(VisitsOf(p, feeds[0].quotes, gate), VisitsOfFeeds(next, feeds[1..], gate), log, gate);
    }
  }

  lemma PollIsLogged(st: State, poll: Poll, gate: real)
    requires Inv(st)
    ensures AllLogged(VisitsOfFeeds(Step(st, poll.writes, true), poll.feeds, gate), AfterPoll(st, poll, gate).log, gate)
  {
    var start := Step(st, poll.writes, true);
    var p := OnFeeds(start, poll.feeds, gate);
    FeedsAreLogged(start, poll.feeds, gate);
    UpdatesExtend(p.state, poll.order, poll.ok);
    LoggedInLonger(VisitsOfFeeds(start, poll.feeds, gate), p.state.log, AfterPoll(st, poll, gate).log, gate);
  }

  /** Conversely, over every run each quote that called for a signal while an append was left is in the log, and
      the records that share its key share its signal: it is logged once. */
  lemma {:induction false} EveryCallIsLogged(st: State, events: seq<Event>, gate: real)
    requires Inv(st)
    ensures AllLogged(VisitsOfEvents(st, events, gate), AfterEvents(st, events, gate).log, gate)
    ensures SharedIds(AfterEvents(st, events, gate).log)
    decreases |events|
  {
    RunKeepsInv(st, events, gate);
    if events != [] {
      var e, next := events[0], AfterEvent(st, events[0], gate);
      var first := VisitsOfEvent(st, e, gate);
      var log := AfterEvents(st, events, gate).log;
      EventExtends(st, e, gate);
      if e.Polled? { PollIsLogged(st, e.poll, gate); }
      EventsExtend(next, events[1..], gate);
      LoggedInLonger(first, next.log, log, gate);
      EveryCallIsLogged(next, events[1..], gate);
      LoggedTogether(first, VisitsOfEvents(next, events[1..], gate), log, gate);
    }
  }

  /** A poll that aborts judges nothing: every signal that was open stays as it was. A poll without live fixtures
      does nothing at all. */
  lemma AbortedPollJudgesNothing(st: State, poll: Poll, gate: real)
    requires Inv(st) && !OnFeeds(Step(st, poll.writes, true), poll.feeds, gate).running
    ensures var st' := AfterPoll(st, poll, gate);
            forall id | id in st.open :: id in st'.open && st'.open[id] == st.open[id]
  {
    FeedsKeepOpen(Step(st, poll.writes, true), poll.feeds, gate);
  }

  lemma IdlePollDoesNothing(st: State, poll: Poll, gate: real)
    requires poll.feeds == []
    ensures AfterPoll(st, poll, gate) == st
  {}

  predicate KeepsOpen(st: State, st': State) {
    forall id | id in st.open :: id in st'.open && st'.open[id] == st.open[id]
  }

  lemma QuoteKeepsOpen(p: Step, q: Quoted, gate: real)
    requires Inv(p.state)
    ensures KeepsOpen(p.state, OnQuoted(p, q, gate).state)
  {
    forall id | id in p.state.open ensures id < p.state.issued {
      OpenIsLogged(p.state, id);
    }
  }

  lemma {:induction false} QuotesKeepOpen(p: Step, quotes: seq<Quoted>, gate: real)
    requires Inv(p.state)
    ensures KeepsOpen(p.state, OnQuotedAll(p, quotes, gate).state)
    decreases |quotes|
  {
    if quotes != [] {
      QuoteKeepsOpen(p, quotes[0], gate);
      QuotedKeepsInv(p, quotes[0], gate);
      QuotesKeepOpen(OnQuoted(p, quotes[0], gate), quotes[1..], gate);
    }
  }

  lemma {:induction false} FeedsKeepOpen(p: Step, feeds: seq<Feed>, gate: real)
    requires Inv(p.state)
    ensures KeepsOpen(p.state, OnFeeds(p, feeds, gate).state)
    decreases |feeds|
  {
    if feeds != [] && p.running && !feeds[0].FetchError? {
      QuotesKeepOpen(p, feeds[0].quotes, gate);
      QuotedAllKeepsInv(p, feeds[0].quotes, gate);
      FeedsKeepOpen(OnQuotedAll(p, feeds[0].quotes, gate), feeds[1..], gate);
    }
  }

  /** A new process starts without a remembered price, so the first quote of a key never calls for a signal, and
      without an open signal. */
  lemma RestartForgets(st: State, q: Quoted, writes: nat, gate: real)
    ensures AfterRestart(st).open == map[]
    ensures !CallsForSignal(Visit(q, AfterRestart(st), writes), gate)
  {}
}

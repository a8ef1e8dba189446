/** The rate-limited trigger loop (native/src/services/autonomous.rs). */
module Autonomous {
  import opened Prelude
  import opened Wagers
  import opened Backtest

  /** `MIN_RETRIGGER_INTERVAL` in milliseconds. */
  const MIN_RETRIGGER_INTERVAL: int := 3600 * 1000

  // ---- The newest tick of each outcome -----------------------------------

  function Latest(ticks: seq<Tick>): map<string, Tick> {
    if ticks == [] then map[]
    else
      var earlier, t := Latest(ticks[..|ticks| - 1]), ticks[|ticks| - 1];
      if t.outcome in earlier && t.ts <= earlier[t.outcome].ts then earlier
      else earlier[t.outcome := t]
  }

  /** `latest_per_outcome`. */
  method LatestPerOutcome(ticks: seq<Tick>) returns (latest: map<string, Tick>)
    ensures latest == Latest(ticks)
  {
    latest := map[];
    for n := 0 to |ticks|
      invariant latest == Latest(ticks[..n])
    {
      var tick := ticks[n];
      assert ticks[..n + 1][..n] == ticks[..n];
      if tick.outcome in latest {
        if tick.ts > latest[tick.outcome].ts {
          latest := latest[tick.outcome := tick];
        }
      } else {
        latest := latest[tick.outcome := tick];
      }
    }
    assert ticks[..|ticks|] == ticks;
  }

  /** Tick `i` carries the newest price of its outcome; of equal timestamps the first counts. */
  predicate IsNewest(ticks: seq<Tick>, i: nat) {
    && i < |ticks|
    && forall j | 0 <= j < |ticks| && ticks[j].outcome == ticks[i].outcome ::
         if j < i then ticks[j].ts < ticks[i].ts else ticks[j].ts <= ticks[i].ts
  }

  lemma {:induction false} QuotedIsInLatest(ticks: seq<Tick>, o: string)
    ensures o in Latest(ticks) <==> exists i :: 0 <= i < |ticks| && ticks[i].outcome == o
  {
    if ticks != [] {
      var front := ticks[..|ticks| - 1];
      QuotedIsInLatest(front, o);
      if o in Latest(front) {
        var i :| 0 <= i < |front| && front[i].outcome == o;
        assert ticks[i].outcome == o;
      }
    }
  }

  /** The map holds exactly the newest tick of every quoted outcome. */
  lemma {:induction false} LatestIsNewest(ticks: seq<Tick>, o: string) returns (i: nat)
    requires o in Latest(ticks)
    ensures IsNewest(ticks, i) && ticks[i].outcome == o && ticks[i] == Latest(ticks)[o]
  {
    var front, n := ticks[..|ticks| - 1], |ticks| - 1;
    if o !in Latest(front) {
      QuotedIsInLatest(front, o);
      i := n;
      assert forall j | 0 <= j < n :: front[j] == ticks[j];
    } else {
      var k := LatestIsNewest(front, o);
      assert forall j | 0 <= j < n :: front[j] == ticks[j];
      i := if ticks[n].outcome == o && ticks[n].ts > front[k].ts then n else k;
    }
  }

  // ---- One poll ----------------------------------------------------------

  datatype Slot = Slot(fixture: nat, outcome: string)

  /** A poll of one fixture: the quoted ticks, the order in which the hash map yields the outcomes, and
      the clock readings at the rate check and at the following store. */
  datatype Poll = Poll(fixture: nat, ticks: seq<Tick>, order: seq<string>, checkedAt: int, storedAt: int)

  datatype Trigger = Trigger(fixture: nat, checkedAt: int, storedAt: int)

  datatype State = State(lastSeen: map<Slot, real>, lastTriggered: map<nat, int>)

  const IDLE := State(map[], map[])

  predicate Moved(previous: real, current: real, threshold: real) {
    previous > 0.0 && PctChange(current, previous) >= threshold
  }

  predicate HasMoved(seen: map<Slot, real>, fixture: nat, latest: map<string, Tick>, o: string, threshold: real)
    requires o in latest
  {
    Slot(fixture, o) in seen && Moved(seen[Slot(fixture, o)], latest[o].decimal, threshold)
  }

  /** The diff over the outcomes in the given order: the updated prices and the first outcome that moved. */
  function Diff(seen: map<Slot, real>, fixture: nat, latest: map<string, Tick>, order: seq<string>,
                threshold: real, found: Option<string>): (map<Slot, real>, Option<string>)
    requires forall o | o in order :: o in latest
    decreases |order|
  {
    if order == [] then (seen, found)
    else
      var o, current := order[0], latest[order[0]].decimal;
      var slot := Slot(fixture, o);
      var hit := slot in seen && Moved(seen[slot], current, threshold) && found.None?;
      Diff(seen[slot := current], fixture, latest, order[1..], threshold, if hit then Some(o) else found)
  }

  /** The order enumerates the outcomes of the map, each once. */
  predicate Enumerates(order: seq<string>, latest: map<string, Tick>) {
    && (forall o | o in order :: o in latest)
    && (forall o | o in latest :: o in order)
    && (forall i, j | 0 <= i < j < |order| :: order[i] != order[j])
  }

  predicate MayTrigger(st: State, poll: Poll) {
    poll.fixture !in st.lastTriggered || poll.checkedAt - st.lastTriggered[poll.fixture] >= MIN_RETRIGGER_INTERVAL
  }

  predicate ValidPoll(poll: Poll) {
    Enumerates(poll.order, Latest(poll.ticks)) && poll.checkedAt <= poll.storedAt
  }

  function AfterPoll(st: State, poll: Poll, threshold: real): (State, Option<Trigger>)
    requires ValidPoll(poll)
  {
    if poll.ticks == [] then (st, None)
    else
      var (seen, found) := Diff(st.lastSeen, poll.fixture, Latest(poll.ticks), poll.order, threshold, None);
      if found.None? || !MayTrigger(st, poll) then (st.(lastSeen := seen), None)
      else
        (State(seen, st.lastTriggered[poll.fixture := poll.storedAt]),
         Some(Trigger(poll.fixture, poll.checkedAt, poll.storedAt)))
  }

  class TriggerLoop {
    var lastSeen: map<Slot, real>
    var lastTriggered: map<nat, int>

    constructor ()
      ensures Current() == IDLE
    {
      lastSeen, lastTriggered := map[], map[];
    }

    function Current(): State
      reads this
    {
      State(lastSeen, lastTriggered)
    }

    /** `poll_fixture`, up to the round it triggers. */
    method PollFixture(poll: Poll, threshold: real) returns (fired: Option<Trigger>)
      requires ValidPoll(poll)
      modifies this
      ensures (Current(), fired) == AfterPoll(old(Current()), poll, threshold)
    {
      if poll.ticks == [] {
        return None;
      }
      var latest := LatestPerOutcome(poll.ticks);
      var triggered := DiffPrices(poll.fixture, latest, poll.order, threshold);
      if triggered.None? {
        return None;
      }
      if poll.fixture in lastTriggered {
        if poll.checkedAt - lastTriggered[poll.fixture] < MIN_RETRIGGER_INTERVAL {
          return None;
        }
      }
      lastTriggered := lastTriggered[poll.fixture := poll.storedAt];
      return Some(Trigger(poll.fixture, poll.checkedAt, poll.storedAt));
    }

    /** The loop over the outcomes, under the lock on the remembered prices. */
    method DiffPrices(fixture: nat, latest: map<string, Tick>, order: seq<string>, threshold: real)
      returns (triggered: Option<string>)
      requires forall o | o in order :: o in latest
      modifies this`lastSeen
      ensures (lastSeen, triggered) == Diff(old(lastSeen), fixture, latest, order, threshold, None)
    {
      triggered := None;
      for i := 0 to |order|
        invariant Diff(old(lastSeen), fixture, latest, order, threshold, None)
               == Diff(lastSeen, fixture, latest, order[i..], threshold, triggered)
      {
        var outcome := order[i];
        var current := latest[outcome].decimal;
        var slot := Slot(fixture, outcome);
        if slot in lastSeen {
          var previous := lastSeen[slot];
          if previous > 0.0 {
            var pct := Abs((current - previous) / previous * 100.0);
            if pct >= threshold && triggered.None? {
              triggered := Some(outcome);
            }
          }
        }
        lastSeen := lastSeen[slot := current];
      }
    }
  }

  // ---- The diff does not depend on the order -----------------------------

  lemma {:induction false} DiffIsOrderFree(seen: map<Slot, real>, fixture: nat, latest: map<string, Tick>,
      order: seq<string>, threshold: real, found: Option<string>)
    requires forall o | o in order :: o in latest
    requires forall i, j | 0 <= i < j < |order| :: order[i] != order[j]
    ensures var (seen', found') := Diff(seen, fixture, latest, order, threshold, found);
            && (found'.Some? <==>
                  found.Some? || exists o :: o in order && HasMoved(seen, fixture, latest, o, threshold))
            && (forall s :: s in seen' <==> s in seen || (s.fixture == fixture && s.outcome in order))
            && (forall s | s in seen' ::
                  seen'[s] == if s.fixture == fixture && s.outcome in order then latest[s.outcome].decimal else seen[s])
    decreases |order|
  {
    if order != [] {
      var o, rest := order[0], order[1..];
      var slot, current := Slot(fixture, o), latest[o].decimal;
      var hit := slot in seen && Moved(seen[slot], current, threshold) && found.None?;
      assert o !in rest;
      assert forall x :: x in order <==> x == o || x in rest;
      DiffIsOrderFree(seen[slot := current], fixture, latest, rest, threshold, if hit then Some(o) else found);
    }
  }

  // ---- Whole runs --------------------------------------------------------

  function AfterPolls(polls: seq<Poll>, threshold: real): (State, seq<Trigger>)
    requires forall p | p in polls :: ValidPoll(p)
    decreases |polls|
  {
    if polls == [] then (IDLE, [])
    else
      var last := polls[|polls| - 1];
      var (st, fired) := AfterPolls(polls[..|polls| - 1], threshold);
      var (st', f) := AfterPoll(st, last, threshold);
      (st', if f.Some? then fired + [f.value] else fired)
  }

  /** The newest price of an outcome in the last poll of the fixture that quoted it. */
  function LastQuoted(polls: seq<Poll>, slot: Slot): Option<real>
    decreases |polls|
  {
    if polls == [] then None
    else
      var last := polls[|polls| - 1];
      if last.fixture == slot.fixture && slot.outcome in Latest(last.ticks)
      then Some(Latest(last.ticks)[slot.outcome].decimal)
      else LastQuoted(polls[..|polls| - 1], slot)
  }

  ghost predicate Remembers(seen: map<Slot, real>, polls: seq<Poll>) {
    forall slot :: if slot in seen then LastQuoted(polls, slot) == Some(seen[slot]) else LastQuoted(polls, slot) == None
  }

  /** Triggers of a fixture keep their distance. */
  predicate Spaced(fired: seq<Trigger>) {
    && (forall t | t in fired :: t.checkedAt <= t.storedAt)
    && (forall i, j | 0 <= i < j < |fired| && fired[i].fixture == fired[j].fixture ::
          fired[j].checkedAt - fired[i].storedAt >= MIN_RETRIGGER_INTERVAL)
  }

  /** When the last trigger of a fixture was stored. */
  function LastFired(fired: seq<Trigger>, fixture: nat): Option<int> {
    if fired == [] then None
    else
      var last := fired[|fired| - 1];
      if last.fixture == fixture then Some(last.storedAt) else LastFired(fired[..|fired| - 1], fixture)
  }

  lemma {:induction false} LastFiredIsLatest(fired: seq<Trigger>, fixture: nat)
    requires Spaced(fired)
    ensures match LastFired(fired, fixture)
            case None => forall t | t in fired :: t.fixture != fixture
            case Some(at) => forall t | t in fired && t.fixture == fixture :: t.storedAt <= at
  {
    if fired != [] {
      var front, last := fired[..|fired| - 1], fired[|fired| - 1];
      LastFiredIsLatest(front, fixture);
      assert fired == front + [last];
      forall t | t in front && t.fixture == last.fixture ensures t.storedAt <= last.storedAt {
        var i :| 0 <= i < |front| && front[i] == t;
        assert fired[i].fixture == fired[|front|].fixture;
      }
    }
  }

  /** The limiter holds exactly the last trigger of every fixture that fired. */
  ghost predicate LimiterCurrent(limiter: map<nat, int>, fired: seq<Trigger>) {
    forall f ::
      if f in limiter then LastFired(fired, f) == Some(limiter[f]) else LastFired(fired, f) == None
  }

  /** Long enough after the last trigger of its fixture, if there was one. */
  predicate Rested(fired: seq<Trigger>, poll: Poll) {
    match LastFired(fired, poll.fixture)
    case None => true
    case Some(at) => poll.checkedAt - at >= MIN_RETRIGGER_INTERVAL
  }

  /** Over every run: the remembered price of each outcome is the one last quoted, two triggers of a fixture
      are at least the minimum interval apart, and the limiter holds the last one. */
  lemma {:induction false} RunInvariant(polls: seq<Poll>, threshold: real)
    requires forall p | p in polls :: ValidPoll(p)
    ensures var (st, fired) := AfterPolls(polls, threshold);
            Remembers(st.lastSeen, polls) && Spaced(fired) && LimiterCurrent(st.lastTriggered, fired)
    decreases |polls|
  {
    if polls != [] {
      var front, last := polls[..|polls| - 1], polls[|polls| - 1];
      RunInvariant(front, threshold);
      var (st, fired) := AfterPolls(front, threshold);
      assert ValidPoll(last);
      PollKeepsMemory(st, front, last, threshold);
      var (st', f) := AfterPoll(st, last, threshold);
      assert front + [last] == polls;
      if f.Some? {
        TriggerKeepsDistance(st.lastTriggered, fired, last);
      }
    }
  }

  lemma TriggerKeepsDistance(limiter: map<nat, int>, fired: seq<Trigger>, poll: Poll)
    requires Spaced(fired) && LimiterCurrent(limiter, fired) && poll.checkedAt <= poll.storedAt
    requires poll.fixture in limiter ==> poll.checkedAt - limiter[poll.fixture] >= MIN_RETRIGGER_INTERVAL
    ensures var t := Trigger(poll.fixture, poll.checkedAt, poll.storedAt);
            Spaced(fired + [t]) && LimiterCurrent(limiter[poll.fixture := poll.storedAt], fired + [t])
  {
    var t := Trigger(poll.fixture, poll.checkedAt, poll.storedAt);
    assert forall i | 0 <= i < |fired| :: fired[i] in fired;
    LastFiredIsLatest(fired, poll.fixture);
    assert (fired + [t])[..|fired|] == fired;
  }

  lemma PollKeepsMemory(st: State, polls: seq<Poll>, poll: Poll, threshold: real)
    requires Remembers(st.lastSeen, polls) && ValidPoll(poll)
    ensures Remembers(AfterPoll(st, poll, threshold).0.lastSeen, polls + [poll])
  {
    assert (polls + [poll])[..|polls|] == polls;
    DiffIsOrderFree(st.lastSeen, poll.fixture, Latest(poll.ticks), poll.order, threshold, None);
  }

  /** A move either way by the threshold, in percent of a positive previous price. */
  lemma MovedIff(previous: real, current: real, threshold: real)
    ensures Moved(previous, current, threshold) <==>
      && previous > 0.0
      && (current - previous >= threshold / 100.0 * previous || previous - current >= threshold / 100.0 * previous)
  {
    if previous > 0.0 {
      PctChangeIsSymmetric(previous, current - previous);
      assert previous + (current - previous) == current;
      ScaleOrder(PctChange(current, previous), threshold, previous);
    }
  }

  /** Two triggers of a fixture are an hour apart, whatever happens in between. */
  lemma TriggersAnHourApart(polls: seq<Poll>, threshold: real, i: nat, j: nat)
    requires forall p | p in polls :: ValidPoll(p)
    requires var fired := AfterPolls(polls, threshold).1; i < j < |fired| && fired[i].fixture == fired[j].fixture
    ensures var fired := AfterPolls(polls, threshold).1;
            fired[j].checkedAt >= fired[i].storedAt + 60 * 60 * 1000
  {
    RunInvariant(polls, threshold);
  }

  /** The remembered price is that of the last poll of the fixture that quoted the outcome. */
  lemma {:induction false} LastQuotedIsLatest(polls: seq<Poll>, slot: Slot)
    ensures match LastQuoted(polls, slot)
            case Some(v) =>
              exists i: nat :: QuotesLast(polls, slot, i) && Latest(polls[i].ticks)[slot.outcome].decimal == v
            case None => forall i: nat | i < |polls| :: !Quotes(polls[i], slot)
  {
    if polls != [] {
      var front, n := polls[..|polls| - 1], |polls| - 1;
      if Quotes(polls[n], slot) {
        assert QuotesLast(polls, slot, n);
      } else {
        LastQuotedIsLatest(front, slot);
        assert forall i: nat | i < n :: front[i] == polls[i];
        if LastQuoted(front, slot).Some? {
          var i: nat :| QuotesLast(front, slot, i)
            && Latest(front[i].ticks)[slot.outcome].decimal == LastQuoted(front, slot).value;
          assert QuotesLast(polls, slot, i);
        }
      }
    }
  }

  predicate Quotes(poll: Poll, slot: Slot) {
    poll.fixture == slot.fixture && slot.outcome in Latest(poll.ticks)
  }

  predicate QuotesLast(polls: seq<Poll>, slot: Slot, i: nat) {
    i < |polls| && Quotes(polls[i], slot) && forall k | i < k < |polls| :: !Quotes(polls[k], slot)
  }

  /** The outcome moved by the threshold since the previous poll of the fixture that quoted it. */
  predicate MovedSinceQuoted(polls: seq<Poll>, poll: Poll, o: string, threshold: real) {
    && o in Latest(poll.ticks)
    && var previous := LastQuoted(polls, Slot(poll.fixture, o));
       previous.Some? && Moved(previous.value, Latest(poll.ticks)[o].decimal, threshold)
  }

  /** A poll fires exactly when some outcome moved by the threshold since the previous poll that quoted it
      and the last trigger of the fixture, if any, is long enough ago. Neither the internal state nor the
      order of the hash map enters. */
  lemma FiresIff(polls: seq<Poll>, poll: Poll, threshold: real)
    requires (forall p | p in polls :: ValidPoll(p)) && ValidPoll(poll)
    ensures var (st, fired) := AfterPolls(polls, threshold);
            AfterPoll(st, poll, threshold).1.Some? <==>
              Rested(fired, poll) && exists o :: MovedSinceQuoted(polls, poll, o, threshold)
  {
    RunInvariant(polls, threshold);
    FiresByMove(polls, poll, threshold);
    assert MayTrigger(AfterPolls(polls, threshold).0, poll) <==> Rested(AfterPolls(polls, threshold).1, poll);
  }

  lemma FiresByMove(polls: seq<Poll>, poll: Poll, threshold: real)
    requires (forall p | p in polls :: ValidPoll(p)) && ValidPoll(poll)
    ensures var st := AfterPolls(polls, threshold).0;
            AfterPoll(st, poll, threshold).1.Some? <==>
              MayTrigger(st, poll) && exists o :: MovedSinceQuoted(polls, poll, o, threshold)
  {
    RunInvariant(polls, threshold);
    var st, latest := AfterPolls(polls, threshold).0, Latest(poll.ticks);
    DiffIsOrderFree(st.lastSeen, poll.fixture, latest, poll.order, threshold, None);
    forall o | MovedSinceQuoted(polls, poll, o, threshold)
      ensures o in poll.order && HasMoved(st.lastSeen, poll.fixture, latest, o, threshold)
    {
      assert Slot(poll.fixture, o) in st.lastSeen;
    }
    forall o | o in poll.order && HasMoved(st.lastSeen, poll.fixture, latest, o, threshold)
      ensures MovedSinceQuoted(polls, poll, o, threshold)
    {
      assert LastQuoted(polls, Slot(poll.fixture, o)) == Some(st.lastSeen[Slot(poll.fixture, o)]);
    }
    assert (exists o :: MovedSinceQuoted(polls, poll, o, threshold))
      <==> exists o :: o in poll.order && HasMoved(st.lastSeen, poll.fixture, latest, o, threshold);
    var found := Diff(st.lastSeen, poll.fixture, latest, poll.order, threshold, None).1;
    assert found.Some? <==> exists o :: o in poll.order && HasMoved(st.lastSeen, poll.fixture, latest, o, threshold);
    assert poll.ticks != [] ==> (AfterPoll(st, poll, threshold).1.Some? <==> found.Some? && MayTrigger(st, poll));
    if poll.ticks == [] {
      assert latest == map[];
      assert forall o :: !MovedSinceQuoted(polls, poll, o, threshold);
    }
  }
}

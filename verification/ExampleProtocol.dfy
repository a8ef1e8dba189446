/** A protocol that carries any given wagers, so that the runs of `WagerRun` exist. */
module ExampleProtocol {
  import opened Prelude
  import opened Wagers
  import opened Authority
  import opened ProofGuard
  import opened Settlement
  import opened Json
  import opened Wire
  import opened Delegation
  import opened GuardExchange
  import opened SettleExchange
  import opened WagerRun

  function IndexOf(ws: seq<Wager>, w: Wager): (i: nat)
    ensures i <= |ws|
    ensures w in ws ==> i < |ws| && ws[i] == w
  {
    if ws == [] || ws[0] == w then 0 else IndexOf(ws[1..], w) + 1
  }

  function Tally(n: nat): (s: string)
    ensures |s| == n && '=' !in s && NeedsNoEscape(s)
  {
    if n == 0 then "" else ['a'] + Tally(n - 1)
  }

  /** The wager at index `n` is printed as an object whose only name has `n` letters. */
  function Numbered(n: nat): Json { Obj([Member(Tally(n), Null)]) }

  lemma NumberedLength(n: nat)
    ensures |Print(Numbered(n))| == n + 9
  {
    EscapePlain(Tally(n));
    assert PrintMembers([Member(Tally(n), Null)]) == Quote(Tally(n)) + [':'] + Print(Null) + [];
  }

  /** What the guard says of the unproven run, with the reference shortened in the middle. */
  const REASON := "proof reference 'txoracle:txo" + ['\U{2026}'] + "ssed' is malformed / placeholder"

  function Listed(ws: seq<Wager>): Protocol {
    Protocol(
      w => Numbered(IndexOf(ws, w)),
      text => if 9 <= |text| < 9 + |ws| then Some(ws[|text| - 9]) else None,
      DEFAULT_TOL,
      round => "1",
      w => REASON)
  }

  /** Every listed wager survives the wire. */
  lemma ListedSurvives(ws: seq<Wager>, w: Wager)
    requires w in ws
    ensures Survives(Listed(ws).encode, Listed(ws).decode, w)
  {
    NumberedLength(IndexOf(ws, w));
  }

  lemma ListedIsSane(ws: seq<Wager>)
    ensures Sane(Listed(ws))
  {
    assert Unspaced("1");
    assert forall text :: Listed(ws).restate(text) == "1";
  }

  lemma ReasonIsPlain(ws: seq<Wager>, w: Wager)
    ensures '=' !in Listed(ws).explain(w)
  {
    PartsArePlain("proof reference 'txoracle:txo", "ssed' is malformed / placeholder");
  }

  lemma PartsArePlain(front: string, back: string)
    requires front == "proof reference 'txoracle:txo" && back == "ssed' is malformed / placeholder"
    ensures '=' !in front && '=' !in back
  {}

  /** The wagers that a run puts on the wire do not depend on its protocol but for the tolerance. */
  function Sent(run: Run): seq<Wager> { [Final(run), Concluded(run)] }

  lemma ListedIsWellPosed(run: Run, ws: seq<Wager>)
    requires run.protocol == Listed(ws) && Final(run) in ws && Concluded(run) in ws
    requires Unspaced(run.round) && Unspaced(run.proposal.wagerId)
    ensures WellPosed(run)
  {
    ListedIsSane(ws);
    ListedSurvives(ws, Final(run));
    ListedSurvives(ws, Concluded(run));
  }

  /** The unproven run exists: it settles although its proof failed. */
  lemma UnprovenRunExists() returns (run: Run)
    ensures WellPosed(run) && run.proposal.proofRef == Some("txoracle:txoracle validation sidecar passed")
    ensures !Passed(run) && Received(run).status == ProofFailed
    ensures Settles(ForwardedOutcome(run)) && GatedOutcome(run).None?
  {
    var ws := Sent(UnprovenRun(Listed([])));
    run := UnprovenRun(Listed(ws));
    assert Final(run) == ws[0] && Concluded(run) == ws[1];
    assert Unspaced("1") && Unspaced("w");
    ListedIsWellPosed(run, ws);
    ReasonIsPlain(ws, Final(run));
    UnprovenWagerSettles(Listed(ws));
  }

  /** The refused run exists as well: it passes the gate and settles a wager that was never ruled. */
  lemma RefusedRunExists(carried: Wager) returns (run: Run)
    requires Settleable(carried)
    ensures WellPosed(run) && Passed(run) && Refused(Final(run))
    ensures GatedOutcome(run) == Some(Answer(carried.wagerId, Settle(Signature(carried, "x"))))
  {
    var ws := [carried] + Sent(RefusedRun(carried, Listed([carried])));
    run := RefusedRun(carried, Listed(ws));
    assert Listed(ws).encode(carried) == Numbered(0) == Listed([carried]).encode(carried);
    assert Final(run) == ws[1] && Concluded(run) == ws[2];
    assert Unspaced("1") && Unspaced("w");
    ListedIsWellPosed(run, ws);
    ListedSurvives(ws, carried);
    RefusedRunSettlesCarried(carried, Listed(ws));
  }

  /** And so does a live, attested run that one remark in its trail stops. */
  lemma RemarkedRunExists() returns (run: Run)
    ensures WellPosed(run) && run.trail == None && Passed(run) && Settles(GatedOutcome(run))
    ensures var remarking := run.(trail := Some(MentioningTrail()));
            !Settles(ForwardedOutcome(remarking)) && !Settles(GatedOutcome(remarking))
  {
    var attested := UnprovenRun(Listed([])).proposal.(proofRef := Some("txoracle"));
    var ws := Sent(UnprovenRun(Listed([])).(proposal := attested));
    run := UnprovenRun(Listed(ws)).(proposal := attested);
    assert Final(run) == ws[0] && Concluded(run) == ws[1];
    assert Unspaced("1") && Unspaced("w");
    ListedIsWellPosed(run, ws);
    EvenOddsWagerIsLive(run);
    NameIsValid();
    assert run.(trail := None) == run;
    RemarkStopsSettlement(run);
  }

  lemma NameIsValid()
    ensures IsValidProofRef("txoracle")
  {}
}

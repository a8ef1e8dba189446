/** The last check before settlement (crates/agent-core/src/proof_guard.rs). */
module ProofGuard {
  import opened Prelude
  import opened Wagers
  import opened Authority

  const DEFAULT_TOL: real := 0.02

  predicate AllowedInProofRef(c: char) {
    || 'a' <= c <= 'z' || 'A' <= c <= 'Z' || '0' <= c <= '9'
    || c == ':' || c == '_' || c == '-' || c == '.' || c == '/'
  }

  /** Length is counted in characters here and in bytes in the source; on the strings that satisfy
      the second conjunct the two agree. */
  predicate IsValidProofRef(s: string) {
    |s| >= 8 && forall i | 0 <= i < |s| :: AllowedInProofRef(s[i])
  }

  datatype Failure =
    | ModelProbOutside | EdgeInconsistent | MarketImpliedOutside
    | FairOddsNotAPrice | FairOddsMismatch | NegativeStake
    | NoAttestation | MalformedAttestation

  /** What each failure says about the wager. */
  predicate Fails(f: Failure, w: Wager, proofRef: Option<string>, tol: real) {
    match f
    case ModelProbOutside => !(0.0 < w.modelProb < 1.0)
    case EdgeInconsistent =>
      0.0 < w.marketImplied < 1.0 && Abs(w.modelProb - w.marketImplied - w.edge) > tol
    case MarketImpliedOutside => !(0.0 < w.marketImplied < 1.0)
    case FairOddsNotAPrice => w.modelProb > 0.0 && w.fairOdds <= 1.0
    case FairOddsMismatch =>
      w.modelProb > 0.0 && w.fairOdds > 1.0 && Abs(1.0 / w.fairOdds - w.modelProb) > tol
    case NegativeStake => w.stakeSol < 0.0
    case NoAttestation => proofRef.None?
    case MalformedAttestation => proofRef.Some? && !IsValidProofRef(proofRef.value)
  }

  predicate Consistent(w: Wager, proofRef: Option<string>, tol: real) {
    forall f: Failure :: !Fails(f, w, proofRef, tol)
  }

  function PushIf(failures: seq<Failure>, f: Failure, w: Wager, proofRef: Option<string>, tol: real): seq<Failure> {
    if Fails(f, w, proofRef, tol) then failures + [f] else failures
  }

  /** The failures of a wager, in the order of the checks: its probabilities, its fair odds, the rest. */
  function Report(w: Wager, proofRef: Option<string>, tol: real): seq<Failure> {
    PushIf(PushIf(PushIf(PriceReport(w, proofRef, tol), NegativeStake, w, proofRef, tol),
      NoAttestation, w, proofRef, tol), MalformedAttestation, w, proofRef, tol)
  }

  function PriceReport(w: Wager, proofRef: Option<string>, tol: real): seq<Failure> {
    PushIf(PushIf(ProbabilityReport(w, proofRef, tol), FairOddsNotAPrice, w, proofRef, tol),
      FairOddsMismatch, w, proofRef, tol)
  }

  function ProbabilityReport(w: Wager, proofRef: Option<string>, tol: real): seq<Failure> {
    PushIf(PushIf(PushIf([], ModelProbOutside, w, proofRef, tol), EdgeInconsistent, w, proofRef, tol),
      MarketImpliedOutside, w, proofRef, tol)
  }

  /** The report lists exactly the failures that apply; it is empty exactly for a consistent wager. */
  lemma ReportIsExact(w: Wager, proofRef: Option<string>, tol: real)
    ensures forall f: Failure :: f in Report(w, proofRef, tol) <==> Fails(f, w, proofRef, tol)
    ensures Report(w, proofRef, tol) == [] <==> Consistent(w, proofRef, tol)
  {
    var r := Report(w, proofRef, tol);
    assert r != [] ==> r[0] in r;
  }

  /** What each failure reports about the wager. */
  lemma ReportSays(w: Wager, proofRef: Option<string>, tol: real)
    ensures var r := Report(w, proofRef, tol);
            && (ModelProbOutside in r <==> w.modelProb <= 0.0 || w.modelProb >= 1.0)
            && (MarketImpliedOutside in r <==> w.marketImplied <= 0.0 || w.marketImplied >= 1.0)
            && (EdgeInconsistent in r <==>
                  && 0.0 < w.marketImplied < 1.0
                  && (w.modelProb - w.marketImplied - w.edge > tol || w.modelProb - w.marketImplied - w.edge < -tol))
            && (FairOddsNotAPrice in r <==> w.modelProb > 0.0 && w.fairOdds <= 1.0)
            && (FairOddsMismatch in r <==>
                  && w.modelProb > 0.0 && w.fairOdds > 1.0
                  && (1.0 / w.fairOdds - w.modelProb > tol || 1.0 / w.fairOdds - w.modelProb < -tol))
            && (NegativeStake in r <==> w.stakeSol < 0.0)
            && (NoAttestation in r <==> proofRef.None?)
            && (MalformedAttestation in r <==> proofRef.Some? && !IsValidProofRef(proofRef.value))
  {
    ReportIsExact(w, proofRef, tol);
  }

  function CheckNumber(f: Failure): nat {
    match f
    case ModelProbOutside => 0
    case EdgeInconsistent => 1
    case MarketImpliedOutside => 2
    case FairOddsNotAPrice => 3
    case FairOddsMismatch => 4
    case NegativeStake => 5
    case NoAttestation => 6
    case MalformedAttestation => 7
  }

  predicate OrderedBelow(r: seq<Failure>, n: nat) {
    && (forall i | 0 <= i < |r| :: CheckNumber(r[i]) < n)
    && (forall i, j | 0 <= i < j < |r| :: CheckNumber(r[i]) < CheckNumber(r[j]))
  }

  lemma PushKeepsOrder(r: seq<Failure>, f: Failure, w: Wager, proofRef: Option<string>, tol: real)
    requires OrderedBelow(r, CheckNumber(f))
    ensures OrderedBelow(PushIf(r, f, w, proofRef, tol), CheckNumber(f) + 1)
  {}

  /** The failures come in the order of the checks, each at most once. */
  lemma ReportIsOrdered(w: Wager, proofRef: Option<string>, tol: real)
    ensures OrderedBelow(Report(w, proofRef, tol), 8)
  {
    PriceReportIsOrdered(w, proofRef, tol);
    var r5 := PushIf(PriceReport(w, proofRef, tol), NegativeStake, w, proofRef, tol);
    PushKeepsOrder(PriceReport(w, proofRef, tol), NegativeStake, w, proofRef, tol);
    PushKeepsOrder(r5, NoAttestation, w, proofRef, tol);
    PushKeepsOrder(PushIf(r5, NoAttestation, w, proofRef, tol), MalformedAttestation, w, proofRef, tol);
  }

  lemma PriceReportIsOrdered(w: Wager, proofRef: Option<string>, tol: real)
    ensures OrderedBelow(PriceReport(w, proofRef, tol), 5)
  {
    var r0 := PushIf([], ModelProbOutside, w, proofRef, tol);
    var r1 := PushIf(r0, EdgeInconsistent, w, proofRef, tol);
    PushKeepsOrder([], ModelProbOutside, w, proofRef, tol);
    PushKeepsOrder(r0, EdgeInconsistent, w, proofRef, tol);
    PushKeepsOrder(r1, MarketImpliedOutside, w, proofRef, tol);
    PushKeepsOrder(ProbabilityReport(w, proofRef, tol), FairOddsNotAPrice, w, proofRef, tol);
    PushKeepsOrder(PushIf(ProbabilityReport(w, proofRef, tol), FairOddsNotAPrice, w, proofRef, tol),
      FairOddsMismatch, w, proofRef, tol);
  }

  /** `run_checks`: pushes exactly the failures that apply, in order. */
  method RunChecks(w: Wager, proofRef: Option<string>, tol: real) returns (failures: seq<Failure>)
    ensures failures == Report(w, proofRef, tol)
  {
    failures := [];
    if !(w.modelProb > 0.0 && w.modelProb < 1.0) {
      failures := failures + [ModelProbOutside];
    }
    if w.marketImplied > 0.0 && w.marketImplied < 1.0 {
      var expectedEdge := w.modelProb - w.marketImplied;
      if Abs(expectedEdge - w.edge) > tol {
        failures := failures + [EdgeInconsistent];
      }
    } else {
      failures := failures + [MarketImpliedOutside];
    }
    assert failures == ProbabilityReport(w, proofRef, tol);
    if w.modelProb > 0.0 {
      match ImpliedProbability(w.fairOdds)
      case None =>
        failures := failures + [FairOddsNotAPrice];
      case Some(implied) =>
        if Abs(implied - w.modelProb) > tol {
          failures := failures + [FairOddsMismatch];
        }
    }
    assert failures == PriceReport(w, proofRef, tol);
    if !(w.stakeSol >= 0.0) {
      failures := failures + [NegativeStake];
    }
    match proofRef {
      case None => failures := failures + [NoAttestation];
      case Some(pr) =>
        if !IsValidProofRef(pr) {
          failures := failures + [MalformedAttestation];
        }
    }
  }

  datatype Verdict = Verdict(passed: bool, wager: Wager)

  function Verified(w: Wager, proofRef: Option<string>, tol: real): Verdict {
    if w.status == NoBet || w.stakeSol <= 0.0 then Verdict(true, w)
    else if Consistent(w, proofRef, tol) then
      Verdict(true, w.(proofRef := proofRef, status := ProofPassed))
    else
      Verdict(false, w.(status := ProofFailed))
  }

  method Verify(w: Wager, proofRef: Option<string>, tol: real) returns (verdict: Verdict)
    ensures verdict == Verified(w, proofRef, tol)
  {
    if w.status == NoBet || w.stakeSol <= 0.0 {
      return Verdict(true, w);
    }
    var failures := RunChecks(w, proofRef, tol);
    ReportIsExact(w, proofRef, tol);
    if failures == [] {
      var passed := w;
      passed := passed.(proofRef := proofRef);
      passed := passed.(status := ProofPassed);
      verdict := Verdict(true, passed);
    } else {
      var failed := w;
      failed := failed.(status := ProofFailed);
      verdict := Verdict(false, failed);
    }
  }

  /** What the guard lets through, in terms of the wager alone: a bet passes exactly if its probabilities are
      proper, its edge and its fair odds agree with them within the tolerance, and its reference is present
      and looks like one. */
  lemma BetPassesIff(w: Wager, proofRef: Option<string>, tol: real)
    requires w.status != NoBet && w.stakeSol > 0.0
    ensures Verified(w, proofRef, tol).passed <==>
      && 0.0 < w.modelProb < 1.0
      && 0.0 < w.marketImplied < 1.0
      && -tol <= w.modelProb - w.marketImplied - w.edge <= tol
      && w.fairOdds > 1.0
      && -tol <= 1.0 / w.fairOdds - w.modelProb <= tol
      && proofRef.Some?
      && |proofRef.value| >= 8
      && forall i | 0 <= i < |proofRef.value| ::
           var c := proofRef.value[i];
           || 'a' <= c <= 'z' || 'A' <= c <= 'Z' || '0' <= c <= '9' || c in ":_-./"
  {
    if proofRef.Some? { RefIsValidIff(proofRef.value); }
    assert Consistent(w, proofRef, tol) <==>
      && !Fails(ModelProbOutside, w, proofRef, tol) && !Fails(EdgeInconsistent, w, proofRef, tol)
      && !Fails(MarketImpliedOutside, w, proofRef, tol) && !Fails(FairOddsNotAPrice, w, proofRef, tol)
      && !Fails(FairOddsMismatch, w, proofRef, tol) && !Fails(NegativeStake, w, proofRef, tol)
      && !Fails(NoAttestation, w, proofRef, tol) && !Fails(MalformedAttestation, w, proofRef, tol);
  }

  lemma RefIsValidIff(s: string)
    ensures IsValidProofRef(s) <==>
      && |s| >= 8
      && forall i | 0 <= i < |s| ::
           var c := s[i];
           || 'a' <= c <= 'z' || 'A' <= c <= 'Z' || '0' <= c <= '9' || c in ":_-./"
  {
    assert forall c: char :: c in ":_-./" <==> c == ':' || c == '_' || c == '-' || c == '.' || c == '/';
  }

  /** So an edge that was tampered with by more than the tolerance fails under every reference. */
  lemma TamperedEdgeFails(w: Wager, edge: real, odds: real, policy: Policy, proofRef: Option<string>, tol: real)
    requires Live(w, odds, policy) && (edge > w.edge + tol || edge < w.edge - tol)
    ensures !Verified(w.(edge := edge), proofRef, tol).passed
    ensures Verified(w.(edge := edge), proofRef, tol).wager.status == ProofFailed
  {
    BetPassesIff(w.(edge := edge), proofRef, tol);
  }

  /** The verdict changes nothing but the status and, when the checks pass, the reference. */
  lemma VerdictKeepsNumbers(w: Wager, proofRef: Option<string>, tol: real)
    ensures var v := Verified(w, proofRef, tol);
            && (w.status == NoBet || w.stakeSol <= 0.0 ==> v == Verdict(true, w))
            && (w.status != NoBet && w.stakeSol > 0.0 ==>
                  v.wager == if v.passed then w.(proofRef := proofRef, status := ProofPassed)
                             else w.(status := ProofFailed))
  {}

  lemma Reciprocal(x: real)
    requires x > 0.0
    ensures 1.0 / (1.0 / x) == x
    ensures 1.0 / x > 0.0
    ensures x > 1.0 ==> 1.0 / x < 1.0
    ensures x < 1.0 ==> 1.0 / x > 1.0
  {
    var r := 1.0 / x;
    assert r * x == 1.0;
    assert r > 0.0;
    DivIntro(1.0, r, x);
  }

  /** A live ruling passes the four numeric checks exactly, at every tolerance, so only the
      attestation can still fail it. */
  lemma LiveRulingPassesIffAttested(w: Wager, odds: real, policy: Policy, proofRef: Option<string>, tol: real)
    requires Live(w, odds, policy) && tol >= 0.0
    ensures Consistent(w, proofRef, tol) <==> proofRef.Some? && IsValidProofRef(proofRef.value)
    ensures Verified(w, proofRef, tol).passed <==> proofRef.Some? && IsValidProofRef(proofRef.value)
  {
    Reciprocal(odds);
    Reciprocal(w.modelProb);
    forall f: Failure ensures Fails(f, w, proofRef, tol) ==> f == NoAttestation || f == MalformedAttestation {}
    assert Fails(NoAttestation, w, proofRef, tol) <==> proofRef.None?;
    assert Fails(MalformedAttestation, w, proofRef, tol) <==> proofRef.Some? && !IsValidProofRef(proofRef.value);
  }
}

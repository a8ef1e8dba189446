/** Whole runs of the wager pipeline: proposal, authority, any number of pundit passes, proof guard,
    settlement (native/src/services/agent/runtime/mod.rs and its delegation modules). The guard and the
    settlement agent are reached over the wire. */
module WagerRun {
  import opened Prelude
  import opened Wagers
  import opened Authority
  import opened ProofGuard
  import opened Pundit
  import opened Settlement
  import opened Json
  import opened Wire
  import opened Delegation
  import opened GuardExchange
  import opened SettleExchange

  /** Everything a run depends on from outside: the proposal with its market price and proof reference,
      the policy, the stances the model takes, whether the guard process answers at all, the reasoning
      trail, and what the processes agree on. */
  datatype Run = Run(
    proposal: Wager,
    odds: real,
    policy: Policy,
    stances: seq<Option<Stance>>,
    guardAnswers: bool,
    round: string,
    trail: Option<Json>,
    protocol: Protocol)

  function AfterDebate(w: Wager, stances: seq<Option<Stance>>, policy: Policy): Wager
    decreases |stances|
  {
    if stances == [] then w
    else AfterDebate(Reacted(w, stances[0], policy), stances[1..], policy)
  }

  function Final(run: Run): Wager {
    AfterDebate(Ruling(run.proposal, run.odds, run.policy), run.stances, run.policy)
  }

  /** What the guard finds in the request, which is not the final wager if the trail carries one. */
  ghost function GuardSees(run: Run): Option<Wager> {
    ReadWager(Render(GuardRequest(run.round, Final(run), run.trail, run.protocol.encode)), run.protocol.decode)
  }

  ghost function GuardText(run: Run): string {
    GuardReply(Render(GuardRequest(run.round, Final(run), run.trail, run.protocol.encode)), run.protocol)
  }

  /** The orchestrator hears a reply if the guard answers in time and about this wager. */
  ghost predicate Heard(run: Run) {
    run.guardAnswers && Matches(GuardText(run), Final(run).wagerId)
  }

  /** The documented proof gate: a reply was heard, and the verdict in it passed. */
  ghost predicate Passed(run: Run) {
    && Heard(run)
    && GuardSees(run).Some?
    && var seen := GuardSees(run).value;
       Verified(seen, seen.proofRef, run.protocol.tol).passed
  }

  function FailClosed(w: Wager): Wager { w.(status := ProofFailed) }

  /** The wager the orchestrator holds after the exchange with the guard; no reply, or an unreadable one, fails
      closed. */
  ghost function Received(run: Run): Wager {
    if !Heard(run) then FailClosed(Final(run))
    else
      match ReadWager(GuardText(run), run.protocol.decode)
      case None => FailClosed(Final(run))
      case Some(received) => received
  }

  /** The documented protocol: settlement is requested once the proof gate has passed. */
  ghost function GatedOutcome(run: Run): Option<Reply> {
    if Passed(run) then ForwardedOutcome(run) else None
  }

  /** The orchestrator as written: once it delegates, it forwards the wager it received whatever the verdict
      was. */
  ghost function ForwardedOutcome(run: Run): Option<Reply> {
    Requested(Received(run), run.trail, run.protocol)
  }

  // ---- The debate --------------------------------------------------------

  /** Through any number of passes a wager stays live at the original market price or is refused, a
      refusal is final, and neither the attestation nor the identity changes. */
  lemma {:induction false} DebateKeepsInvariant(w: Wager, stances: seq<Option<Stance>>, odds: real, policy: Policy)
    requires Live(w, odds, policy) || Refused(w)
    ensures var d := AfterDebate(w, stances, policy);
            && (Live(d, odds, policy) || Refused(d))
            && d.proofRef == w.proofRef && d.wagerId == w.wagerId
            && (Refused(w) ==> d == w)
    decreases |stances|
  {
    if stances == [] {
    } else {
      if Live(w, odds, policy) {
        PassKeepsLiveOrRefuses(w, stances[0], odds, policy);
      }
      DebateKeepsInvariant(Reacted(w, stances[0], policy), stances[1..], odds, policy);
    }
  }

  lemma FinalIsLiveOrRefused(run: Run)
    ensures Live(Final(run), run.odds, run.policy) || Refused(Final(run))
    ensures Final(run).proofRef == run.proposal.proofRef && Final(run).wagerId == run.proposal.wagerId
  {
    RulingIsLiveOrRefused(run.proposal, run.odds, run.policy);
    DebateKeepsInvariant(Ruling(run.proposal, run.odds, run.policy), run.stances, run.odds, run.policy);
  }

  /** One veto anywhere in the debate is final. */
  lemma {:induction false} VetoIsFinal(w: Wager, stances: seq<Option<Stance>>, odds: real, policy: Policy)
    requires (Live(w, odds, policy) || Refused(w)) && Some(Veto) in stances
    ensures Refused(AfterDebate(w, stances, policy))
    decreases |stances|
  {
    var next := Reacted(w, stances[0], policy);
    if Live(w, odds, policy) {
      PassKeepsLiveOrRefuses(w, stances[0], odds, policy);
      if stances[0] == Some(Veto) {
        VetoRefuses(w, odds, policy);
      }
    }
    if stances[0] == Some(Veto) {
      assert Refused(next);
      DebateKeepsInvariant(next, stances[1..], odds, policy);
    } else {
      VetoIsFinal(next, stances[1..], odds, policy);
    }
  }

  lemma VetoedRunIsRefused(run: Run)
    requires Some(Veto) in run.stances
    ensures Refused(Final(run))
  {
    RulingIsLiveOrRefused(run.proposal, run.odds, run.policy);
    VetoIsFinal(Ruling(run.proposal, run.odds, run.policy), run.stances, run.odds, run.policy);
  }

  // ---- The guard exchange ------------------------------------------------

  /** The verdict on the final wager. */
  function Judged(run: Run): Verdict {
    Verified(Final(run), Final(run).proofRef, run.protocol.tol)
  }

  /** What the guard made of the final wager, or its silence. */
  function Concluded(run: Run): Wager {
    if run.guardAnswers then Judged(run).wager else FailClosed(Final(run))
  }

  /** Round and wager id are single words, and the two wagers that are sent survive the wire. */
  ghost predicate WellPosed(run: Run) {
    && Sane(run.protocol)
    && Unspaced(run.round) && Unspaced(run.proposal.wagerId)
    && Survives(run.protocol.encode, run.protocol.decode, Final(run))
    && Survives(run.protocol.encode, run.protocol.decode, Concluded(run))
  }

  /** The reasons of a failing verdict carry no eligible `wager=`. */
  ghost predicate CleanReason(run: Run) {
    run.guardAnswers && !Judged(run).passed ==> NoEligible(ReasonText(run.protocol.explain(Final(run))), "wager")
  }

  /** With a clean trail the guard sees the final wager, and its answer is heard. */
  lemma GuardSeesFinal(run: Run)
    requires WellPosed(run) && CleanTrail(run.trail)
    ensures GuardSees(run) == Some(Final(run))
    ensures Heard(run) <==> run.guardAnswers
    ensures Passed(run) <==> run.guardAnswers && Judged(run).passed
  {
    FinalIsLiveOrRefused(run);
    GuardReadsWager(run.round, Final(run), run.trail, run.protocol.encode, run.protocol.decode);
    ExchangeReturnsVerdict(run.round, Final(run), run.trail, run.protocol);
  }

  /** Without an answer it fails closed: the final wager, marked as failed and otherwise untouched. */
  lemma SilentGuardFailsClosed(run: Run)
    requires !run.guardAnswers
    ensures !Passed(run) && Received(run) == Final(run).(status := ProofFailed)
  {}

  /** Unless the reasons of a failure carry a wager, the orchestrator receives the wager of the verdict. */
  lemma ReceivedIsConcluded(run: Run)
    requires WellPosed(run) && CleanTrail(run.trail) && CleanReason(run)
    ensures Received(run) == Concluded(run)
  {
    FinalIsLiveOrRefused(run);
    GuardSeesFinal(run);
    ExchangeReturnsVerdict(run.round, Final(run), run.trail, run.protocol);
  }

  /** If they do carry one, it is what the orchestrator receives, or it fails closed. */
  lemma SmuggledReasonIsReceived(run: Run)
    requires WellPosed(run) && CleanTrail(run.trail) && !CleanReason(run)
    ensures var w, p := Final(run), run.protocol;
            var request := Render(GuardRequest(run.round, w, run.trail, p.encode));
            var head := ReplyHead(p.restate(Tok(request, "round")), Judged(run), p.explain(w));
            match JsonValue(head, "wager")
            case None => true
            case Some(carried) =>
              Received(run) == (match p.decode(carried) case None => FailClosed(w) case Some(received) => received)
  {
    FinalIsLiveOrRefused(run);
    GuardSeesFinal(run);
    ExchangeReturnsVerdict(run.round, Final(run), run.trail, run.protocol);
  }

  /** The guard only ever changes the status, never to or from a no-bet that it saw. */
  lemma GuardKeepsBet(run: Run)
    ensures SameBet(Concluded(run), Final(run))
    ensures Final(run).status == NoBet && run.guardAnswers ==> Concluded(run) == Final(run)
    ensures Final(run).status != NoBet ==> Concluded(run).status != NoBet
  {}

  predicate SameBet(w: Wager, w': Wager) {
    w == w'.(status := w.status)
  }

  // ---- Settlement --------------------------------------------------------

  /** The numbers behind every settlement, in terms of the original market price. */
  predicate SoundStake(w: Wager, odds: real, policy: Policy) {
    SoundNumbers(w.modelProb, w.edge, w.stakeSol, odds, policy)
  }

  predicate SoundNumbers(p: real, edge: real, stake: real, odds: real, policy: Policy) {
    && odds > 1.0
    && 0.0 < p < 1.0
    && edge == p - 1.0 / odds
    && edge > policy.minEdge
    && edge > 0.0
    && 0.0 < stake == Min(policy.cap, Fractional(edge / (1.0 - 1.0 / odds), policy))
  }

  lemma LiveIsSound(w: Wager, odds: real, policy: Policy)
    requires Live(w, odds, policy)
    ensures SoundStake(w, odds, policy)
  {
    PositiveStakeIsCappedKelly(w.edge, w.marketImplied, policy);
    assert w.edge / (1.0 - w.marketImplied) == w.edge / (1.0 - 1.0 / odds);
  }

  /** What the debate left, as far as settlement is concerned. */
  lemma FinalCases(run: Run)
    ensures var w := Final(run);
            if Live(w, run.odds, run.policy)
            then Settleable(w) && SoundStake(w, run.odds, run.policy)
            else Refused(w) && !Settleable(w) && Judged(run) == Verdict(true, w)
    ensures Final(run).proofRef == run.proposal.proofRef
  {
    FinalIsLiveOrRefused(run);
    if Live(Final(run), run.odds, run.policy) { LiveIsSound(Final(run), run.odds, run.policy); }
  }

  /** Whether the verdict passes depends on the attestation of a live wager alone; a refused one passes through
      the guard's shortcut, its reference unexamined. */
  lemma PassedIff(run: Run)
    requires run.protocol.tol >= 0.0
    ensures Judged(run).passed <==>
      !Live(Final(run), run.odds, run.policy)
      || (run.proposal.proofRef.Some? && IsValidProofRef(run.proposal.proofRef.value))
  {
    FinalCases(run);
    var w := Final(run);
    if Live(w, run.odds, run.policy) {
      LiveRulingPassesIffAttested(w, run.odds, run.policy, w.proofRef, run.protocol.tol);
    }
  }

  /** Whatever the reference, the trail and the reasons hold: either protocol settles if the first word of the
      reference it forwards is usable and the wager in its request can be settled; the documented one also
      needs the gate. */
  lemma RunSettlesIff(run: Run)
    ensures Settles(ForwardedOutcome(run)) <==>
      UsableToken(Received(run).proofRef) && CarriesSettleable(Received(run), run.trail, run.protocol)
    ensures Settles(GatedOutcome(run)) <==> Passed(run) && Settles(ForwardedOutcome(run))
  {
    DelegationSettlesIff(Received(run), run.trail, run.protocol);
  }

  // ---- Runs with a clean trail -------------------------------------------

  /** The orchestrator as written, exactly, when trail and reasons are clean. With a clean reference it settles
      if the debate left a live wager, the gate playing no part; with one that carries a wager of its own, if
      that wager can be settled. */
  lemma ForwardedRunSettlesIff(run: Run)
    requires WellPosed(run) && CleanTrail(run.trail) && CleanReason(run)
    ensures Settles(ForwardedOutcome(run)) <==>
      && UsableToken(run.proposal.proofRef)
      && if CleanRef(run.proposal.proofRef.value) then Live(Final(run), run.odds, run.policy)
         else CarriesSettleable(Received(run), run.trail, run.protocol)
  {
    var w := Received(run);
    FinalCases(run);
    ReceivedIsConcluded(run);
    GuardKeepsBet(run);
    RunSettlesIff(run);
    if w.proofRef.Some? && CleanRef(w.proofRef.value) {
      CleanDelegation(w, run.trail, run.protocol);
      assert Settleable(w) <==> Live(Final(run), run.odds, run.policy);
    }
  }

  /** What it settles with a clean reference is the run's own wager, with a sound stake. */
  lemma ForwardedRunIsSound(run: Run)
    requires WellPosed(run) && CleanTrail(run.trail) && CleanReason(run) && Settles(ForwardedOutcome(run))
    requires run.proposal.proofRef.Some? && CleanRef(run.proposal.proofRef.value)
    ensures SoundStake(Received(run), run.odds, run.policy)
    ensures ForwardedOutcome(run) == Some(Answer(run.proposal.wagerId,
      Settle(Signature(Received(run), UntilSpace(run.proposal.proofRef.value)))))
  {
    ForwardedRunSettlesIff(run);
    LiveRunIsSound(run);
    ReceivedIsConcluded(run);
    CleanDelegation(Received(run), run.trail, run.protocol);
    DecidesByFirstFailure(Received(run), Some(UntilSpace(run.proposal.proofRef.value)));
  }

  lemma LiveRunIsSound(run: Run)
    requires WellPosed(run) && CleanTrail(run.trail) && CleanReason(run) && Live(Final(run), run.odds, run.policy)
    ensures SoundStake(Received(run), run.odds, run.policy)
    ensures Received(run).wagerId == run.proposal.wagerId && Received(run).proofRef == run.proposal.proofRef
  {
    FinalIsLiveOrRefused(run);
    LiveIsSound(Final(run), run.odds, run.policy);
    ReceivedIsConcluded(run);
    GuardKeepsBet(run);
  }

  /** A refused wager settles, in either protocol, only through a wager that its reference carries. */
  lemma RefusalSettlesIff(run: Run)
    requires WellPosed(run) && CleanTrail(run.trail) && Refused(Final(run))
    ensures Settles(ForwardedOutcome(run)) <==>
      && UsableToken(run.proposal.proofRef) && !CleanRef(run.proposal.proofRef.value)
      && CarriesSettleable(Received(run), run.trail, run.protocol)
    ensures Settles(GatedOutcome(run)) <==> run.guardAnswers && Settles(ForwardedOutcome(run))
  {
    RefusedOrLive(run);
    PassedIff(run);
    GuardSeesFinal(run);
    ForwardedRunSettlesIff(run);
  }

  /** So a vetoed run settles nothing in either protocol, unless the reference carries a wager of its own. */
  lemma VetoedRunNeverSettles(run: Run)
    requires WellPosed(run) && CleanTrail(run.trail) && Some(Veto) in run.stances
    requires run.proposal.proofRef.Some? ==> CleanRef(run.proposal.proofRef.value)
    ensures !Settles(ForwardedOutcome(run)) && !Settles(GatedOutcome(run))
  {
    VetoedRunIsRefused(run);
    RefusalSettlesIff(run);
  }

  lemma RefusedOrLive(run: Run)
    requires WellPosed(run) && CleanTrail(run.trail)
    ensures Refused(Final(run)) <==> !Live(Final(run), run.odds, run.policy)
    ensures Refused(Final(run)) && run.guardAnswers ==> Received(run) == Final(run)
  {
    FinalCases(run);
    if Refused(Final(run)) {
      ReceivedIsConcluded(run);
      GuardKeepsBet(run);
    }
  }

  /** The documented protocol, exactly, for every reference. With a clean one a run settles if and only if the
      debate left a live wager, the guard answered, and the attestation is well-shaped. With one that carries
      a wager of its own, a refused wager passes through the shortcut and the one it carries is settled. */
  lemma GatedRunSettlesIff(run: Run)
    requires WellPosed(run) && CleanTrail(run.trail)
    ensures Settles(GatedOutcome(run)) <==>
      && run.guardAnswers && run.proposal.proofRef.Some?
      && var pr := run.proposal.proofRef.value;
         if CleanRef(pr) then Live(Final(run), run.odds, run.policy) && IsValidProofRef(pr)
         else
           && Refused(Final(run)) && UsableToken(Some(pr))
           && CarriesSettleable(Final(run), run.trail, run.protocol)
  {
    RefusedOrLive(run);
    PassedIff(run);
    GuardSeesFinal(run);
    if run.proposal.proofRef.Some? && IsValidProofRef(run.proposal.proofRef.value) {
      ValidProofRefIsHarmless(run.proposal.proofRef.value);
    }
    if Passed(run) {
      ForwardedRunSettlesIff(run);
    }
  }

  /** A wager settles although the gate did not pass exactly if the first word of the reference is usable and
      either a live wager has a clean but malformed reference or a silent guard, or the reference carries a
      settleable wager and the guard was silent or judged a live one. */
  lemma SettlesUnprovenIff(run: Run)
    requires WellPosed(run) && CleanTrail(run.trail) && CleanReason(run)
    ensures Settles(ForwardedOutcome(run)) && !Passed(run) <==>
      && UsableToken(run.proposal.proofRef)
      && var pr := run.proposal.proofRef.value;
         if CleanRef(pr) then
           Live(Final(run), run.odds, run.policy) && (!run.guardAnswers || !IsValidProofRef(pr))
         else
           && (!run.guardAnswers || Live(Final(run), run.odds, run.policy))
           && CarriesSettleable(Received(run), run.trail, run.protocol)
  {
    ForwardedRunSettlesIff(run);
    PassedIff(run);
    GuardSeesFinal(run);
    if run.proposal.proofRef.Some? && IsValidProofRef(run.proposal.proofRef.value) {
      ValidProofRefIsHarmless(run.proposal.proofRef.value);
    }
  }

  /** Reasons that carry a wager belong to a verdict that did not pass, so whatever settles then is unproven. */
  lemma CarriedReasonIsUnproven(run: Run)
    requires WellPosed(run) && CleanTrail(run.trail) && !CleanReason(run)
    ensures !Passed(run) && !Settles(GatedOutcome(run))
    ensures Settles(ForwardedOutcome(run)) <==>
      UsableToken(Received(run).proofRef) && CarriesSettleable(Received(run), run.trail, run.protocol)
  {
    GuardSeesFinal(run);
    RunSettlesIff(run);
  }

  /** Were the reference checked before the shortcut, by the guard or by its caller, both protocols would be
      safe as far as the trail is clean: nothing settles but a live wager, with a sound stake and under its
      whole reference. */
  lemma AttestedRunIsSafe(run: Run)
    requires WellPosed(run) && CleanTrail(run.trail)
    requires run.proposal.proofRef.Some? && IsValidProofRef(run.proposal.proofRef.value)
    ensures Settles(ForwardedOutcome(run)) <==> Live(Final(run), run.odds, run.policy)
    ensures Settles(GatedOutcome(run)) <==> Live(Final(run), run.odds, run.policy) && run.guardAnswers
    ensures Settles(ForwardedOutcome(run)) ==>
      && SoundStake(Received(run), run.odds, run.policy)
      && ForwardedOutcome(run)
      == Some(Answer(run.proposal.wagerId, Settle(Signature(Received(run), run.proposal.proofRef.value))))
    ensures Settles(GatedOutcome(run)) ==>
      GatedOutcome(run) == ForwardedOutcome(run) && Received(run).status == ProofPassed
  {
    ValidProofRefIsHarmless(run.proposal.proofRef.value);
    PassedIff(run);
    ForwardedRunSettlesIff(run);
    GatedRunSettlesIff(run);
    if Settles(ForwardedOutcome(run)) {
      ForwardedRunIsSound(run);
      if run.guardAnswers { AttestedIsPassed(run); }
    }
  }

  lemma AttestedIsPassed(run: Run)
    requires WellPosed(run) && CleanTrail(run.trail) && run.guardAnswers
    requires Live(Final(run), run.odds, run.policy) && Judged(run).passed
    ensures Received(run).status == ProofPassed
  {
    ReceivedIsConcluded(run);
    GuardKeepsBet(run);
  }

  // ---- Runs whose trail carries a container ------------------------------

  /** The reasoning trail is the model's own prose, and both requests put it before the wager. A container that
      closes in it is what the guard judges and, behind a clean reference, what the agent decides on; the run's
      own wager is not read at all. */
  lemma CarryingTrailSettlesIff(run: Run)
    requires Sane(run.protocol) && Unspaced(run.round) && Unspaced(run.proposal.wagerId)
    requires TrailContainer(run.trail).Some?
    ensures GuardSees(run) == run.protocol.decode(TrailContainer(run.trail).value)
    ensures Received(run).proofRef.Some? && CleanRef(Received(run).proofRef.value) ==>
      var carried := run.protocol.decode(TrailContainer(run.trail).value);
      && (Settles(ForwardedOutcome(run)) <==>
            UsableToken(Received(run).proofRef) && carried.Some? && Settleable(carried.value))
      && (Settles(GatedOutcome(run)) <==> Passed(run) && Settles(ForwardedOutcome(run)))
  {
    FinalIsLiveOrRefused(run);
    GuardReadsTrail(run.round, Final(run), run.trail, run.protocol.encode);
    RunSettlesIff(run);
    if Received(run).proofRef.Some? && CleanRef(Received(run).proofRef.value) {
      AgentReadsTrail(Received(run), Received(run).proofRef.value, run.trail, run.protocol);
    }
  }

  /** In particular a container that is no wager stops every settlement behind a clean reference: the guard
      finds nothing to judge, the orchestrator fails closed, and the agent rejects the payload. */
  lemma UnreadableTrailStopsRun(run: Run)
    requires Sane(run.protocol) && Unspaced(run.round) && Unspaced(run.proposal.wagerId)
    requires TrailContainer(run.trail).Some? && run.protocol.decode(TrailContainer(run.trail).value).None?
    ensures !Passed(run) && Received(run) == FailClosed(Final(run))
    ensures run.proposal.proofRef.Some? && CleanRef(run.proposal.proofRef.value) ==>
      ForwardedOutcome(run) == Some(MalformedPayload)
    ensures run.proposal.proofRef.None? ==> ForwardedOutcome(run).None?
  {
    FinalIsLiveOrRefused(run);
    CarryingTrailSettlesIff(run);
    ExchangeReturnsVerdict(run.round, Final(run), run.trail, run.protocol);
    if run.proposal.proofRef.Some? && CleanRef(run.proposal.proofRef.value) {
      var w, pr := Received(run), run.proposal.proofRef.value;
      AgentReadsTrail(w, pr, run.trail, run.protocol);
      AgentDecidesOnText(pr, run.trail, run.protocol.encode(w), run.protocol.decode);
    }
  }

  /** A thesis that mentions an empty wager is such a trail. */
  function MentioningTrail(): Json { Arr([Str(" wager={}")]) }

  lemma MentioningTrailCarriesEmptyWager()
    ensures TrailContainer(Some(MentioningTrail())) == Some("{}")
  {
    RequestKeysAreTokens();
    FrontIsClean();
    MentioningTrailText();
    DocBehind(FieldText(Scalar("toolTrail", "[\"")), "wager", Obj([]), "\"]");
    EmptyObject();
  }

  lemma FrontIsClean()
    ensures NoEligible(FieldText(Scalar("toolTrail", "[\"")), "wager")
  {
    RequestKeysAreTokens();
    PlainScalarIsClean("toolTrail", "[\"", "wager");
  }

  lemma EmptyObject()
    ensures Print(Obj([])) == "{}"
  {}

  lemma MentioningTrailText()
    ensures FieldText(Doc("toolTrail", MentioningTrail()))
         == FieldText(Scalar("toolTrail", "[\"")) + " " + ("wager" + "=" + Print(Obj([]))) + "\"]"
  {
    var s, payload := " wager={}", "wager" + "=" + Print(Obj([]));
    QuotedRemark(s);
    RemarkIsPlain(s);
    Glue("toolTrail" + "=", "[\"", " ", payload, "\"]");
  }

  lemma QuotedRemark(s: string)
    requires s == " wager={}"
    ensures FieldText(Doc("toolTrail", Arr([Str(s)]))) == "toolTrail" + "=" + "[\"" + s + "\"]"
  {
    RemarkIsPlain(s);
    EscapePlain(s);
    QuotedItem("toolTrail", s);
  }

  lemma QuotedItem(key: string, s: string)
    requires Escape(s) == s
    ensures FieldText(Doc(key, Arr([Str(s)]))) == key + "=" + "[\"" + s + "\"]"
  {
    OneItem(s);
    Wrapped(key + "=", ['['], ['"'], s, [']']);
    Glue(key + "=", ['['], ['"'], s, "\"]");
    assert ['['] + ['"'] == "[\"" && ['"'] + [']'] == "\"]";
  }

  lemma RemarkIsPlain(s: string)
    requires s == " wager={}"
    ensures NeedsNoEscape(s) && s == " " + ("wager" + "=" + Print(Obj([])))
  {}

  lemma Glue(a: string, b: string, c: string, d: string, e: string)
    ensures a + b + (c + d) + e == (a + b) + c + d + e
    ensures a + b + c + d + e == a + (b + c) + d + e
  {}

  /** So the answer to whether an attested, answered, live run settles turns on one remark in the trail. */
  lemma RemarkStopsSettlement(run: Run)
    requires WellPosed(run) && run.guardAnswers && Live(Final(run), run.odds, run.policy)
    requires run.proposal.proofRef.Some? && IsValidProofRef(run.proposal.proofRef.value)
    requires run.protocol.decode("{}").None?
    ensures var silent, remarking := run.(trail := None), run.(trail := Some(MentioningTrail()));
            && Settles(ForwardedOutcome(silent)) && Settles(GatedOutcome(silent))
            && !Settles(ForwardedOutcome(remarking)) && !Settles(GatedOutcome(remarking))
  {
    var silent, remarking := run.(trail := None), run.(trail := Some(MentioningTrail()));
    ValidProofRefIsHarmless(run.proposal.proofRef.value);
    AttestedRunIsSafe(silent);
    MentioningTrailCarriesEmptyWager();
    UnreadableTrailStopsRun(remarking);
  }

  // ---- Two runs that settle what they should not --------------------------

  /** The orchestrator builds a reference from the validator's note, whose default text has spaces. */
  function UnprovenRun(protocol: Protocol): Run {
    var pr := "txoracle:txoracle validation sidecar passed";
    var w := Wager("w", 1, Home, 0.6, 0.0, 0.0, 0.0, 0.0, Some(pr), Proposed);
    Run(w, 2.0, FromMaxSpend(1.0), [], true, "1", None, protocol)
  }

  /** An unproven wager. The guard rejects that reference, with reasons that quote a part of it, and the agent
      settles on its first word. */
  lemma UnprovenWagerSettles(protocol: Protocol)
    requires WellPosed(UnprovenRun(protocol)) && '=' !in protocol.explain(Final(UnprovenRun(protocol)))
    ensures var run := UnprovenRun(protocol);
            && !Passed(run) && Received(run).status == ProofFailed
            && Settles(ForwardedOutcome(run)) && GatedOutcome(run).None?
  {
    var run := UnprovenRun(protocol);
    EvenOddsWagerIsLive(run);
    NoteIsUsable(run.proposal.proofRef.value);
    PlainReasonIsClean(protocol.explain(Final(run)));
    UnattestedIsUnproven(run);
  }

  lemma UnattestedIsUnproven(run: Run)
    requires WellPosed(run) && CleanTrail(run.trail) && CleanReason(run) && run.guardAnswers
    requires Live(Final(run), run.odds, run.policy)
    requires UsableToken(run.proposal.proofRef) && CleanRef(run.proposal.proofRef.value)
    requires !IsValidProofRef(run.proposal.proofRef.value)
    ensures !Passed(run) && Received(run).status == ProofFailed && Settles(ForwardedOutcome(run))
  {
    SettlesUnprovenIff(run);
    ReceivedIsConcluded(run);
    GuardKeepsBet(run);
    PassedIff(run);
  }

  lemma EvenOddsWagerIsLive(run: Run)
    requires run.proposal.modelProb == 0.6 && run.odds == 2.0 && run.policy == FromMaxSpend(1.0) && run.stances == []
    ensures Live(Final(run), run.odds, run.policy)
  {
    assert 1.0 / 2.0 == 0.5 && KellyShare(0.6 - 0.5, 0.5) == 0.2;
    assert Bets(0.6, 2.0, run.policy);
    RulingIsLiveOrRefused(run.proposal, run.odds, run.policy);
  }

  lemma NoteIsUsable(pr: string)
    requires pr == "txoracle:txoracle validation sidecar passed"
    ensures !IsValidProofRef(pr) && CleanRef(pr) && UsableToken(Some(pr))
  {
    assert pr[0] == 't' && pr[17] == ' ';
    assert !AllowedInProofRef(pr[17]);
    NoteHasNoEquals(pr);
    RequestKeysAreTokens();
    SettleTokens();
    PlainScalarIsClean("proofRef", pr, "wager");
    StartsUsable(pr);
  }

  lemma NoteHasNoEquals(pr: string)
    requires pr == "txoracle:txoracle validation sidecar passed"
    ensures '=' !in pr
  {}

  lemma StartsUsable(pr: string)
    requires pr != "" && pr[0] == 't'
    ensures UsableToken(Some(pr))
  {
    var word := UntilSpace(pr);
    assert !IsWhitespace('t') && word[0] == 't';
    assert "none"[0] == 'n';
  }

  /** A refused wager whose reference carries another one. */
  function RefusedRun(carried: Wager, protocol: Protocol): Run {
    var pr := "x" + " " + FieldText(Doc("wager", protocol.encode(carried)));
    var w := Wager("w", 1, Home, 0.6, 0.0, 0.0, 0.0, 0.0, Some(pr), Proposed);
    Run(w, 1.0, FromMaxSpend(1.0), [], true, "1", None, protocol)
  }

  /** Whatever can be settled and survives the wire is settled through the documented gate: the final wager is
      a no-bet, the verdict passes, and the agent settles the wager that the reference carries. */
  lemma RefusedRunSettlesCarried(carried: Wager, protocol: Protocol)
    requires WellPosed(RefusedRun(carried, protocol))
    requires Survives(protocol.encode, protocol.decode, carried) && Settleable(carried)
    ensures var run := RefusedRun(carried, protocol);
            && Passed(run) && Refused(Final(run))
            && GatedOutcome(run) == ForwardedOutcome(run)
            && GatedOutcome(run) == Some(Answer(carried.wagerId, Settle(Signature(carried, "x"))))
  {
    var run, pr := RefusedRun(carried, protocol), RefusedRun(carried, protocol).proposal.proofRef.value;
    assert Refused(Final(run));
    GuardSeesFinal(run);
    ReceivedIsConcluded(run);
    CarryingReference(protocol.encode(carried));
    SettleRequestIsFaithful(Final(run), pr, None, protocol);
    AgentDecidesOnText(pr, None, protocol.encode(Final(run)), protocol.decode);
    DecidesByFirstFailure(carried, Some("x"));
  }

  /** A reference that holds a printed container under the wager key. */
  lemma CarryingReference(v: Json)
    requires IsContainer(v)
    ensures var pr := "x" + " " + FieldText(Doc("wager", v));
            && UntilSpace(pr) == "x"
            && !NoEligible(SettleHead(pr, None), "wager")
            && JsonValue(SettleHead(pr, None), "wager") == Some(Print(v))
  {
    var pr, front := "x" + " " + FieldText(Doc("wager", v)), RenderFrom("SETTLE_REQUESTED", [Scalar("proofRef", "x")]);
    RequestKeysAreTokens();
    SettleTokens();
    UntilSpaceStops("x", FieldText(Doc("wager", v)));
    WordsOfToken("x");
    PlainScalarIsClean("proofRef", "x", "wager");
    HeadIsCleanIff("x", None);
    CarryingHead(v);
    DocAtEnd(front, "wager", v);
    DocAtEndFoundIff(front, "wager", v);
  }

  lemma CarryingHead(v: Json)
    ensures SettleHead("x" + " " + FieldText(Doc("wager", v)), None)
         == RenderFrom("SETTLE_REQUESTED", [Scalar("proofRef", "x")]) + " " + FieldText(Doc("wager", v))
    ensures SettleHead("x", None) == RenderFrom("SETTLE_REQUESTED", [Scalar("proofRef", "x")])
  {
    OneScalar("x");
    OneScalar("x" + " " + FieldText(Doc("wager", v)));
    Reassociate("SETTLE_REQUESTED", " ", "proofRef", "=", "x" + " " + FieldText(Doc("wager", v)));
    Reassociate("SETTLE_REQUESTED", " ", "proofRef", "=", "x");
    TailAssoc("SETTLE_REQUESTED" + " " + ("proofRef" + "="), "x", " ", FieldText(Doc("wager", v)));
  }

  lemma OneScalar(pr: string)
    ensures SettleHead(pr, None) == RenderFrom("SETTLE_REQUESTED", [Scalar("proofRef", pr)])
         == "SETTLE_REQUESTED" + " " + ("proofRef" + "=" + pr)
  {
    assert [Scalar("proofRef", pr)] + [] == [Scalar("proofRef", pr)];
    assert [Scalar("proofRef", pr)][..0] == [];
  }

  lemma TailAssoc(a: string, b: string, c: string, d: string)
    ensures a + (b + c + d) == a + b + c + d
  {}
}

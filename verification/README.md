# World Cup agents: wagers, wire grammar, fundamentals and arena

A Dafny model of the deterministic core behind the betting agents, with proofs of what that core promises.

- **Wager pipeline** (`Wagers`, `Authority`, `ProofGuard`, `Pundit`, `Settlement`, `WagerRun`, `ExampleProtocol`): Kelly
  sizing, the stake authority, the two fan pundits, the proof guard and the settlement decision, composed into whole runs.
- **Wire grammar** (`Json`, `Wire`, `WireJson`, `Delegation`, `GuardExchange`, `SettleExchange`): the flat
  `VERB key=value` texts, the string-aware scanner for embedded JSON, and the messages the agents exchange. JSON texts are printed as in RFC 8259
  (sections 2 and 7), compactly and in the order of the fields.
- **Fundamentals** (`Fundamentals`): the softmax over home, draw and away, and its port as a tool of the language model.
- **Arena** (`Arena`, `Backtest`, `ArenaAgents`, `Coordinator`, `SignalLog`, `ToolLoop`, `Autonomous`): the stateful
  loops over maps and logs, including steps that fail half-way, restarts, and an adversarial language model.

Each loop or object that the program updates step by step is a method or class here; its contract equates the new
state with a specification function, and the theorems are lemmas about that function over all runs.

Conventions of the model:

- `f64` is `real`. `exp`, `ln` and `tanh` are parameters, constrained only by the laws in `IsExp`, `IsLn` and `IsOdd`.
- UUIDs are distinct tokens; deserialisers, tools, the language model, the rule that compares a winner's name with a
  selection, and the order in which a hash map yields its entries are parameters.
- A wager survives the wire if the deserialiser recovers it from its printed text; no text can carry every real number,
  so this is asked only of the wagers that a run sends. `ExampleProtocol` gives protocols that meet it.
- An append to a log either happens whole or fails; a disk is the number of appends it still accepts, or a predicate
  saying which ones succeed.
- Texts are sequences of Unicode characters, and positions count characters.
- A policy's cap is not negative, because the source passes it to `f64::clamp` as an upper bound above zero.
- The arena agents divide by the previous price even if it is zero, so their move is finite, infinite or not a number.
- Some source functions are split for their proofs: `json_val` into `FindKey` and `ScanValue`, `run_tool_loop` into
  rounds and calls, `detector_step` into its innermost body, `poll_fixture` into its diff. The nested loops over markets
  and selections are one sequence of quotes in feed order.

Where the code and its documentation disagree, the model follows the code:

- The settlement agent's header says that settlement is requested once the proof gate has passed. The orchestrator, once
  it delegates, hands the wager it received on whatever the verdict was, and the agent refuses `NoBet` alone.
  `SettlesUnprovenIff` says exactly which wagers settle without having passed, and `UnprovenRunExists` gives one.
- The proof reference is put on the wire as it is, in front of the wager, and the guard passes a refused wager without
  looking at its reference. A reference that carries a `wager=` of its own therefore makes the agent settle that wager,
  even under the documented gate: `GatedRunSettlesIff` is exact for every reference, and `RefusedRunExists` gives such a
  run for every settleable wager. Checking the shape of the reference before the shortcut is up to the caller;
  `AttestedRunIsSafe` proves that it is enough as long as the reasoning trail holds no lookalike.
- The reasoning trail quotes the model's own prose and stands before the wager in both requests. A container that it
  carries is read in place of the wager by guard and agent alike (`CarryingTrailSettlesIff`), so a mere remark such as
  ` wager={}` in a thesis stops an attested run (`RemarkedRunExists`).
- The doc comment of `json_val` says that text inside another field's JSON string is never taken for the key.
  `LookalikeWins` refutes that for every key that is one word, needs no escaping and is not the other field's own;
  `GenuineFieldFoundIff` gives the exact condition.
- A comment in the detector speaks of the next poll; a signal is judged at the end of the poll that creates it
  (`SteadySignalIsCorrectInItsOwnPoll`).
- The coordinator settles a position once per process, not once for all: the settled set is not reloaded
  (`RestartSettlesAgain`).
- A position whose previous price was zero is logged with an infinite move, which JSON prints as `null`; the coordinator
  skips that line, so the position never settles (`RunKeepsReadable`).

## Model

| member | source | states |
|---|---|---|
| Wagers.KellyIsEdgeOverOneMinusImplied | crates/txodds-types/src/wager.rs:170-181 | the Kelly fraction is the positive edge over one minus the implied probability, is at most the probability, and is positive exactly for a positive edge; the upper clamp never binds |
| Wagers.KellyIsGrowthOptimal | crates/txodds-types/src/wager.rs:160-181 | among all fractions below one the Kelly fraction is the unique maximiser of expected log growth, the no-bet case included |
| Authority.Adjudicate | native/src/services/agent/authority.rs:66-141 | the ruling field by field, in every branch |
| Authority.RulingIsLiveOrRefused | native/src/services/agent/authority.rs:66-141 | a ruling is live (exact edge, fair odds, implied price, capped stake, status) exactly when the terms allow a bet, and otherwise a no-bet with zero stake |
| Authority.RulingKeepsBooks | native/src/services/agent/authority.rs:66-141 | what every ruling leaves in price, edge, fair odds and status: exact books once price and probability are usable, even for a refused wager |
| Authority.DefaultRulingIff | native/src/services/agent/authority.rs:34-43 | under the default policy a wager lives exactly with more than two points of edge and a positive limit, and stakes a quarter of Kelly on it |
| Authority.FractionalIsShareOfBankroll | native/src/services/agent/authority.rs:106-109 | under any policy the sized stake is the Kelly share of the bankroll times the multiplier |
| Authority.PositiveStakeIsCappedKelly | native/src/services/agent/authority.rs:106-112 | a positive stake needs a positive edge and is the fractional Kelly stake cut at the cap |
| Authority.StakeIsMonotone | native/src/services/agent/authority.rs:90-112 | a more confident model never stakes less, under any policy |
| Authority.RulingIsMonotone | native/src/services/agent/authority.rs:90-128 | the ruled stake is monotone in the probability, refusals counting as zero |
| Authority.DefaultCapNeverBinds | native/src/services/agent/authority.rs:34-43 | under the policy derived from a spending limit the stake stays below the cap |
| ProofGuard.RunChecks | crates/agent-core/src/proof_guard.rs:74-147 | the list of failures, in the order of the checks |
| ProofGuard.ReportIsExact | crates/agent-core/src/proof_guard.rs:74-147 | a failure is listed exactly when it applies; the list is empty exactly for a consistent wager |
| ProofGuard.ReportSays | crates/agent-core/src/proof_guard.rs:74-147 | what each of the eight failures reports about the numbers and the reference |
| ProofGuard.ReportIsOrdered | crates/agent-core/src/proof_guard.rs:74-147 | the failures come in the order of the checks, each at most once |
| ProofGuard.BetPassesIff | crates/agent-core/src/proof_guard.rs:63-194 | a bet passes exactly with proper probabilities, an edge and fair odds that agree with them within the tolerance, and a reference of at least eight allowed characters |
| ProofGuard.TamperedEdgeFails | crates/agent-core/src/proof_guard.rs:85-96 | a live ruling whose edge is altered by more than the tolerance fails under every reference |
| ProofGuard.VerdictKeepsNumbers | crates/agent-core/src/proof_guard.rs:153-194 | a verdict changes nothing but the status and, on passing, the reference |
| ProofGuard.Verify | crates/agent-core/src/proof_guard.rs:153-194 | no-bets and zero stakes pass unchanged; otherwise the wager passes exactly when it is consistent, and only then takes the reference |
| ProofGuard.LiveRulingPassesIffAttested | crates/agent-core/src/proof_guard.rs:74-194 | a live ruling passes at every tolerance exactly when its proof reference is well-shaped |
| Pundit.ReactToWager | native/src/services/agent/pundit_agent.rs:117-212 | the re-adjudicated wager, or none when the reaction is impossible |
| Pundit.PassKeepsLiveOrRefuses | native/src/services/agent/pundit_agent.rs:174-205 | a pass keeps a live wager live at the same market price or refuses it, and the odds are always reconstructed |
| Pundit.VetoRefuses | native/src/services/agent/pundit_agent.rs:201-204 | a veto leaves a no-bet without a stake, whatever the re-adjudication says |
| Pundit.StanceMovesProbability | native/src/services/agent/pundit_agent.rs:186-200 | each stance moves the probability by three points, kept between one and ninety-nine percent |
| Pundit.PassIsRuling | native/src/services/agent/pundit_agent.rs:186-200 | short of a veto a pass is the ruling on the moved probability at the original price |
| Pundit.OtherStanceIsIdentity | native/src/services/agent/pundit_agent.rs:186-200 | an unknown stance changes nothing exactly when the probability lies within the clamp |
| Pundit.StanceMovesStakeItsWay | native/src/services/agent/pundit_agent.rs:186-200 | an endorsement never lowers and a challenge never raises the stake within the clamp |
| Pundit.EndorseLowersExactlyAboveClamp | native/src/services/agent/pundit_agent.rs:186-200 | under the default policy an endorsement lowers the stake exactly when the probability exceeded 0.99 |
| Pundit.ChallengeNeverRaisesByDefault | native/src/services/agent/pundit_agent.rs:186-200 | under the default policy a challenge never raises the stake |
| Pundit.EditWager | crates/agents/fan-pundit-agent/src/main.rs:135-152 | the edit clamps the probability and recomputes the edge but leaves price, fair odds and, short of a veto, stake and status alone |
| Pundit.EditPassesIffNudgeWithinTolerance | crates/agents/fan-pundit-agent/src/main.rs:135-152 | from a live ruling the edit passes the guard exactly on a veto, or with a valid reference and a clamped nudge within the tolerance |
| Pundit.EditUnderDefaultTolerance | crates/agents/fan-pundit-agent/src/main.rs:135-152 | with the default tolerance an endorsement passes exactly from 0.97 up, a challenge exactly from 0.03 down |
| Settlement.DecidesByFirstFailure | crates/agents/settlement-agent/src/main.rs:67-155 | exactly settleable wagers on usable tokens settle, and a rejection names the first check that fails |
| Settlement.SignatureNamesWager | crates/agents/settlement-agent/src/main.rs:140-145 | the pseudo-signature is the prefix, the wager id, and the first eight characters of the token |
| WagerRun.DebateKeepsInvariant | native/src/services/agent/pundit_agent.rs:117-212 | through any number of pundit passes a wager stays live at its original price or is refused for good, and its reference and identity never change |
| WagerRun.VetoedRunIsRefused | native/src/services/agent/pundit_agent.rs:201-204 | one veto anywhere in the debate leaves the run refused |
| WagerRun.VetoedRunNeverSettles | native/src/services/agent/pundit_agent.rs:201-204 | a vetoed run with a clean trail and reference settles nothing in either protocol |
| WagerRun.RefusalSettlesIff | crates/agent-core/src/proof_guard.rs:153-161 | with a clean trail a refused wager passes the guard by the shortcut and settles, in either protocol, exactly through a settleable wager that its reference carries |
| WagerRun.RunSettlesIff | native/src/services/agent/runtime/mod.rs:531-661 | for every run, reference, trail and protocol: the orchestrator, once it delegates, settles exactly if the reference it forwards has a usable first word and the wager in its request can be settled; the documented protocol exactly if the gate passed as well |
| WagerRun.GatedRunSettlesIff | crates/agents/settlement-agent/src/main.rs:8-14 | with a clean trail the documented protocol settles, for a clean reference, exactly the live, answered and attested wagers; otherwise exactly a refused wager whose reference carries a settleable one |
| WagerRun.AttestedRunIsSafe | crates/agent-core/src/proof_guard.rs:63-68 | with a well-shaped reference and a clean trail both protocols settle live wagers only, under the whole reference and with a sound stake |
| WagerRun.RefusedRunSettlesCarried | native/src/services/agent/runtime/settlement_delegation.rs:76-81 | a run whose own wager is refused passes the gate and settles any settleable wager that its reference carries and that survives the wire |
| ExampleProtocol.RefusedRunExists | native/src/services/agent/runtime/settlement_delegation.rs:76-81 | such a run exists for every settleable wager |
| SettleExchange.DelegationSettlesIff | native/src/services/agent/runtime/settlement_delegation.rs:47-81 | for every wager, reference and trail the delegation settles exactly if the first word of the reference is usable and the wager found in the text can be settled |
| WagerRun.ForwardedRunSettlesIff | native/src/services/agent/runtime/mod.rs:531-661 | with clean trail and reasons the orchestrator, once it delegates, settles for a clean reference exactly the live wagers with a usable token, and otherwise exactly what the reference carries if that can be settled |
| WagerRun.ForwardedRunIsSound | native/src/services/agent/runtime/mod.rs:531-661 | what it settles with a clean reference is the run's own wager with a sound stake |
| WagerRun.SettlesUnprovenIff | native/src/services/agent/runtime/mod.rs:531-661 | with clean trail and reasons, exactly which wagers settle once delegated although the gate did not pass, for every reference |
| WagerRun.CarriedReasonIsUnproven | native/src/services/agent/runtime/wager_proof_delegation.rs:121-147 | reasons that carry a wager belong to a verdict that did not pass, and what is settled then is the wager in the request that the orchestrator makes of them |
| WagerRun.UnprovenWagerSettles | native/src/services/agent/runtime/mod.rs:382-389 | the reference built from the default validation note fails the gate and settles on its first word |
| ExampleProtocol.UnprovenRunExists | native/src/services/agent/runtime/mod.rs:382-389 | such a run exists |
| WagerRun.GuardSeesFinal | crates/agents/proof-guard-agent/src/main.rs:35-80 | with a clean trail the guard sees the final wager, its answer is heard, and the gate is its verdict |
| WagerRun.CarryingTrailSettlesIff | native/src/services/agent/runtime/handoff.rs:43-59 | with a container in the trail the guard judges that, and behind a clean reference a run settles exactly if that is a settleable wager; the run's own wager is not read |
| WagerRun.UnreadableTrailStopsRun | native/src/services/agent/runtime/wager_proof_delegation.rs:121-147 | a container in the trail that is no wager fails the gate, fails closed, and is rejected as malformed |
| WagerRun.RemarkStopsSettlement | native/src/services/agent/wager_agent.rs:121-123 | an attested, answered, live run settles without a trail and does not with a remark in it |
| ExampleProtocol.RemarkedRunExists | native/src/services/agent/wager_agent.rs:121-123 | such a run exists |
| SettleExchange.AgentDecidesOnText | crates/agents/settlement-agent/src/main.rs:52-106 | whatever the request holds, the agent decides on the wager it finds in the text and the first word of the reference |
| SettleExchange.SettleRequestText | native/src/services/agent/runtime/settlement_delegation.rs:76-81 | the request as text |
| SettleExchange.SettleRequestIsFaithful | native/src/services/agent/runtime/settlement_delegation.rs:76-81 | that wager is the one sent, if it survives the wire and reference and trail are clean, and otherwise the container that they carry |
| SettleExchange.AgentReadsReference | native/src/services/agent/runtime/settlement_delegation.rs:76-81 | a container in the reference is read before anything in the trail or the wager |
| SettleExchange.AgentReadsTrail | native/src/services/agent/runtime/handoff.rs:43-59 | behind a clean reference a container in the trail is read before the wager |
| SettleExchange.HeadIsCleanIff | native/src/services/agent/runtime/settlement_delegation.rs:76-81 | what stands before the wager is clean exactly if the reference and the trail are |
| WagerRun.ReceivedIsConcluded | native/src/services/agent/runtime/wager_proof_delegation.rs:41-147 | with a clean trail the orchestrator receives, over the whole guard exchange, the wager of the verdict, or fails closed, unless the reasons carry one |
| WagerRun.SilentGuardFailsClosed | native/src/services/agent/runtime/wager_proof_delegation.rs:111-119 | without an answer the gate is shut and the wager is the final one marked as failed |
| WagerRun.SmuggledReasonIsReceived | native/src/services/agent/runtime/wager_proof_delegation.rs:121-147 | a wager that the quoted reasons carry is what the orchestrator receives |
| WagerRun.PassedIff | crates/agent-core/src/proof_guard.rs:153-194 | the verdict on a run passes exactly if its wager was refused or its reference is well-shaped |
| SettleExchange.ValidProofRefIsHarmless | crates/agent-core/src/proof_guard.rs:63-68 | a well-shaped reference smuggles nothing and arrives whole |
| Wire.JsonVal | crates/coral-client/src/wire.rs:62-105 | the value behind the occurrence at which the search stops, or none, for every text and key |
| Wire.FindKey | crates/coral-client/src/wire.rs:63-75 | the search loop stops where the recursive search does |
| Wire.ScanValue | crates/coral-client/src/wire.rs:77-104 | the scan loop returns the shortest prefix whose string-aware depth is back at zero, or there is none |
| Wire.JumpSkipsNothing | crates/coral-client/src/wire.rs:65-75 | for a key that does not overlap itself at a word start the jump skips no eligible occurrence |
| Wire.SearchFindsFirstEligible | crates/coral-client/src/wire.rs:65-75 | for such a key the search finds the first eligible occurrence or there is none |
| Wire.OtherKeysAreMissed | crates/coral-client/src/wire.rs:65-75 | for every other key some text has an eligible occurrence that the search misses |
| Wire.JsonValIsExact | crates/coral-client/src/wire.rs:53-104 | the extractor yields a text exactly when that text follows the first eligible occurrence and is the shortest closed prefix |
| WireJson.ContainerClosesAtItsEnd | crates/coral-client/src/wire.rs:77-104 | a printed object or array closes exactly at its own end, whatever follows |
| WireJson.RoundTrip | crates/coral-client/src/wire.rs:62-105 | the extractor undoes the printer for every object and array behind any prefix without an eligible occurrence |
| Delegation.VerbRecovered | crates/coral-client/src/wire.rs:9-15 | the verb of every rendered message is recovered in upper case |
| Delegation.UppercaseFolds | crates/coral-client/src/wire.rs:9-15 | verbs that differ in ASCII case alone are the same |
| Delegation.TokRecoversScalar | crates/coral-client/src/wire.rs:17-26 | every scalar before the first JSON field is recovered |
| Delegation.FirstScalarRecovered | crates/coral-client/src/wire.rs:17-26 | a first scalar of any content is recovered up to its first space |
| Delegation.JsonValRecoversDoc | crates/coral-client/src/wire.rs:44-105 | every JSON field is recovered if no earlier JSON holds a lookalike of its key |
| Delegation.GenuineFieldFoundIff | crates/coral-client/src/wire.rs:44-75 | the search stops at the genuine field exactly when no earlier JSON holds a lookalike |
| Delegation.EarlierDecides | crates/coral-client/src/wire.rs:62-105 | an eligible key in an earlier part of a text decides what is read: its container if that closes there, else one that swallows the rest of that part |
| Delegation.CleanPartIsSkipped | crates/coral-client/src/wire.rs:62-105 | behind a part without an eligible key a text is read as if it stood alone |
| Delegation.LookalikeWins | crates/coral-client/src/wire.rs:54-56 | for every plain key but the note's own, a lookalike inside an earlier JSON string replaces the genuine value |
| Delegation.ValidProofRefSurvives | crates/agent-core/src/proof_guard.rs:63-68 | a reference accepted by the guard survives the scalar grammar and is not the absence marker |
| GuardExchange.GuardReadsWager | crates/agents/proof-guard-agent/src/main.rs:35-80 | the guard reads the wager that was sent exactly if the trail that rides along holds no lookalike, and otherwise what the trail carries |
| GuardExchange.GuardReadsTrail | native/src/services/agent/runtime/handoff.rs:43-59 | a container in the trail is what the guard reads, whatever wager was sent |
| GuardExchange.VerdictMatches | native/src/services/coralos/thread_reader.rs:91-101 | every verdict matches the orchestrator's filter for the id of its wager |
| GuardExchange.VerdictScalars | crates/agents/proof-guard-agent/src/main.rs:67-70 | verb, round, wager id and outcome of every reply can be read back |
| GuardExchange.GuardRequestText | native/src/services/agent/runtime/wager_proof_delegation.rs:73-81 | the request as text |
| GuardExchange.OrchestratorReadsVerdict | native/src/services/agent/runtime/wager_proof_delegation.rs:121-138 | the orchestrator reads back the verdict's wager exactly if the verdict passed or its reasons are clean, and otherwise what they smuggle in |
| GuardExchange.ExchangeReturnsVerdict | crates/agents/proof-guard-agent/src/main.rs:35-80 | request, handle and reply composed, for every trail: the reply carries the wager of the verdict on the wager the guard read, and that is read back exactly if the verdict passed or its reasons are clean; an unreadable request gets an unreadable reply |
| Fundamentals.ComputeDistribution | crates/agent-core/src/fundamentals.rs:171-205 | the distribution computed from the accumulated side scores is the model's, which the theorems below are about |
| Fundamentals.SideScoreIsAntisymmetric | crates/agent-core/src/fundamentals.rs:155-169 | swapping the sides negates the score |
| Fundamentals.FormHelps | crates/agent-core/src/fundamentals.rs:155-205 | better recent form strictly raises the own and lowers the other win probability |
| Fundamentals.ExpectedGoalsHelp | crates/agent-core/src/fundamentals.rs:155-205 | so do more expected goals |
| Fundamentals.InjuriesHurt | crates/agent-core/src/fundamentals.rs:155-205 | more injuries do the opposite |
| Fundamentals.RankHelps | crates/agent-core/src/fundamentals.rs:155-205 | a better, lower rank helps if both ranks are known |
| Fundamentals.UnknownRankDoesNotCount | crates/agent-core/src/fundamentals.rs:155-169 | a rank without a counterpart changes nothing |
| Fundamentals.HeadToHeadHelps | crates/agent-core/src/fundamentals.rs:178-183 | a better record against the opponent helps |
| Fundamentals.HomeAwayOdds | crates/agent-core/src/fundamentals.rs:155-220 | the odds of home against away are the exponential of the weighted differences and the home advantage over the temperature |
| Fundamentals.DefaultHomeAwayOdds | crates/agent-core/src/fundamentals.rs:133-220 | the same with the shipped weights |
| Fundamentals.LevelMatchFavoursHome | crates/agent-core/src/fundamentals.rs:171-205 | between equal sides only the home advantage decides |
| Fundamentals.SoftmaxIsUnshifted | crates/agent-core/src/fundamentals.rs:197-220 | the shift by the largest logit changes nothing and the shifted total is at least one, so the fallback is dead |
| Fundamentals.SoftmaxIsDistribution | crates/agent-core/src/fundamentals.rs:197-220 | the three entries lie strictly between zero and one and sum to one |
| Fundamentals.Shape | crates/agent-core/src/fundamentals.rs:155-220 | with the gap the home probability strictly rises and the away probability strictly falls; the draw depends on the size of the gap alone and strictly falls with it |
| Fundamentals.PickIsLargest | crates/agent-core/src/fundamentals.rs:133-141 | the pick has the largest probability, ties going to home, then away |
| Fundamentals.DrawPriorIsOdds | crates/agent-core/src/fundamentals.rs:185-190 | a usable draw prior enters with its odds |
| Fundamentals.DrawPickedIff | crates/agent-core/src/fundamentals.rs:133-220 | the draw is the top pick exactly when twice the half gap is below the log draw odds less half the home advantage |
| Fundamentals.DrawNeverPicked | crates/agent-core/src/fundamentals.rs:133-205 | with a draw prior of at most one half and no negative home advantage the draw is never the top pick |
| Fundamentals.DrawNeverPickedByDefault | crates/agent-core/src/fundamentals.rs:133-205 | with the shipped defaults the draw is never the top pick |
| Fundamentals.ToolIsSoftmax | crates/rig-venice/src/tools.rs:461-486 | the tool computes the same softmax on its own draw logit |
| Fundamentals.PortsAgreeIff | crates/rig-venice/src/tools.rs:461-486 | the two ports agree on a match exactly when the draw prior is at most 0.999999 |
| Arena.OppositeBets | crates/agent-core/src/arena.rs:159-210 | of two opposite bets one wins, and together they return the odds less both stakes |
| Arena.BetPays | crates/agent-core/src/arena.rs:159-210 | a bet with the selection wins exactly with it, and pays the odds less the stake |
| Arena.SettledByIsFilter | crates/agent-core/src/arena.rs:159-210 | the settled positions of an agent, each as often as it occurs |
| Arena.EntryCountsSettled | crates/agent-core/src/arena.rs:159-210 | the entry counts the settled positions of the agent and those of them that won |
| Arena.EntryRate | crates/agent-core/src/arena.rs:159-210 | the win rate is won over taken |
| Arena.SettledByConcat | crates/agent-core/src/arena.rs:159-210 | the settled positions of an agent are collected piecewise |
| Arena.TotalsConcat | crates/agent-core/src/arena.rs:159-210 | wins and profits add up over any split of the positions |
| Backtest.ReplayTicks | native/src/services/backtest.rs:119-186 | the replay always completes and yields a pair of positions for each signal of the declarative definition, in order, and nothing else |
| Backtest.SignalIsSufficientMove | native/src/services/backtest.rs:124-146 | from one hundred machine epsilons on, a signal is exactly a sufficient move from the previous tick of the outcome |
| Backtest.PreviousIsLatest | native/src/services/backtest.rs:124-136 | the previous price is that of the latest earlier tick of the outcome |
| Backtest.ResendIsNoSignal | native/src/services/backtest.rs:131-134 | a price sent again is no signal under any threshold |
| Backtest.PctChangeIsSymmetric | crates/rig-venice/src/tools.rs:220-252 | equal rises and falls from one price change as much |
| Backtest.ConfidenceIsHalfTheRatio | crates/rig-venice/src/tools.rs:220-252 | the confidence is half the ratio of move to threshold, at most one |
| Backtest.MovementReads | crates/rig-venice/src/tools.rs:220-252 | what the movement tool reports of size, sharpness, direction and confidence |
| Backtest.PairBetsApart | native/src/services/backtest.rs:147-189 | on a fallen price the follower bets on the outcome and the fader against it, on a risen one the other way round, each paid by the winner |
| Backtest.ReplayConserves | native/src/services/backtest.rs:160-305 | two positions a signal, one win a signal, profits summing to the odds less both stakes and win rates to one, as the leaderboard counts |
| ArenaAgents.MatchIntelligence.Step | crates/agents/match-intelligence/src/main.rs:218-334 | the FOLLOW step on any fetches and any disk failure: new prices, new log, and whether it completed |
| ArenaAgents.Contrarian.Step | crates/agents/contrarian/src/main.rs:252-346 | the FADE step likewise |
| ArenaAgents.QuoteKeepsMirror | crates/agents/contrarian/src/main.rs:271-341 | one quote keeps the two agents mirrored |
| ArenaAgents.Lockstep | crates/agents/match-intelligence/src/main.rs:240-325 | over every sequence of polls, failing ones included, the two agents remember the same prices and log the same bets in opposite directions |
| ArenaAgents.LogIsBetsOnStream | crates/agents/match-intelligence/src/main.rs:240-325 | while appends succeed, the log is exactly one bet for each quote that moved enough from the previous quote of its key |
| ArenaAgents.LastPriceIsLatest | crates/agents/match-intelligence/src/main.rs:240-325 | the remembered price is that of the latest earlier quote of the key |
| ArenaAgents.LoggedBetsAreOnMoves | crates/agents/match-intelligence/src/main.rs:246-287 | each logged position is a bet on a sufficient move between two successive quotes of its key; FOLLOW goes with a shortened price, FADE against it |
| ArenaAgents.MoveIsSufficientIff | crates/agents/match-intelligence/src/main.rs:246-256 | a quote is bet on exactly if the move reaches the threshold either way and is confident enough |
| ArenaAgents.FailedAppendForgetsNothing | crates/agents/match-intelligence/src/main.rs:289-325 | a bet whose append fails leaves log and remembered price alone |
| Coordinator.ArenaCoordinator.Step | crates/agents/arena-coordinator/src/main.rs:285-381 | the settlement step on any results and any disk failure: settled set, counters, log |
| Coordinator.PositionKeepsConsistent | crates/agents/arena-coordinator/src/main.rs:313-378 | settling one position, or failing to, keeps log, set and counters consistent |
| Coordinator.SettlesOnce | crates/agents/arena-coordinator/src/main.rs:285-381 | over every run of a process each settled position has exactly one record and the four counters add up to their number |
| Coordinator.StepSettlesExactlyDecided | crates/agents/arena-coordinator/src/main.rs:313-325 | a completed step leaves no decided position open, and no step settles any other |
| Coordinator.NewRecordsAreJustified | crates/agents/arena-coordinator/src/main.rs:326-360 | the log only grows, and each new record states the true result and profit of a decided position |
| Coordinator.BetWinsAsMeant | crates/agents/arena-coordinator/src/main.rs:326-336 | following a shortened price wins exactly if the selection wins, fading it exactly if it does not, and the other way round |
| Coordinator.RestartSettlesAgain | crates/agents/arena-coordinator/src/main.rs:218-219 | a restarted coordinator settles a decided position again |
| Coordinator.RunKeepsTally | crates/agents/arena-coordinator/src/main.rs:313-378 | over every run the counters count the settled positions by their true result |
| Coordinator.LoadedIsReadable | crates/agents/arena-coordinator/src/main.rs:417-429 | exactly the positions with a finite move are loaded |
| Coordinator.RunKeepsReadable | crates/agents/arena-coordinator/src/main.rs:299-381 | over every run no position with an unreadable line is settled |
| Coordinator.ContestIsZeroSum | crates/agents/arena-coordinator/src/main.rs:104-126 | after lockstep polls and any settlement run in which both sides of each bet are settled together, each win of one agent is a loss of the other and the two scores cancel |
| Coordinator.ConcludedContestIsZeroSum | crates/agents/arena-coordinator/src/main.rs:285-381 | once a step completes on the whole logs with everything decided, exactly the readable positions are settled and the contest is zero-sum, whatever happened before |
| SignalLog.Detector.Run | crates/agents/sharp-movement-detector/src/detector.rs:19-157 | the poll step on any feed, any reports and any disk failure |
| SignalLog.Detector.Examine | crates/agents/sharp-movement-detector/src/detector.rs:61-140 | the branches for one quote, including what each leaves unrecorded |
| SignalLog.Detector.UpdateOpenSignals | crates/agents/sharp-movement-detector/src/signal.rs:69-95 | the updates of all open signals in any order, with any appends failing |
| SignalLog.Detector.Restart | crates/agents/sharp-movement-detector/src/signal.rs:118-131 | a new process keeps only the log and reloads the keys from it |
| SignalLog.RunKeepsInv | crates/agents/sharp-movement-detector/src/detector.rs:61-157 | over every interleaving of polls, aborts and restarts records with one key share one signal, memory holds exactly the logged keys, and replay reproduces the open signals, exactly so while no update append has failed |
| SignalLog.QuoteIsLoggedIff | crates/agents/sharp-movement-detector/src/detector.rs:61-140 | a quote is logged and held open exactly if its price left the remembered one, its key is new, its report is sharp and confident with a direction, and an append is left; what is remembered otherwise |
| SignalLog.EveryRecordStems | crates/agents/sharp-movement-detector/src/detector.rs:61-140 | over every run each record stems from a quote that called for a signal when it was looked at |
| SignalLog.EveryCallIsLogged | crates/agents/sharp-movement-detector/src/detector.rs:61-140 | over every run each quote that called for a signal while an append was left is logged, once |
| SignalLog.AbortedPollJudgesNothing | crates/agents/sharp-movement-detector/src/detector.rs:61-157 | a poll that aborts leaves every open signal as it was |
| SignalLog.RestartReproducesSeen | crates/agents/sharp-movement-detector/src/signal.rs:118-131 | reloading after a crash at any point reproduces the set of seen keys |
| SignalLog.RestartForgets | crates/agents/sharp-movement-detector/src/signal.rs:118-131 | a new process has no open signal, and the first quote of a key never calls for one |
| SignalLog.SteadySignalIsCorrectInItsOwnPoll | crates/agents/sharp-movement-detector/src/signal.rs:69-95 | after every completed poll each open signal is judged by the current price, a signal born in that poll included |
| ToolLoop.RunToolLoop | crates/rig-venice/src/loop_runner.rs:62-138 | against any model and tools: at most the given rounds, every request alternating and continuing the last, every call run once in order and answered with its output, steps counting rounds plus calls, only completion failures as errors, and the first call to the final tool as the answer |
| ToolLoop.Round | crates/rig-venice/src/loop_runner.rs:74-134 | one round either ends the run rightly or yields an alternating, fully answered next request |
| ToolLoop.ExecuteCalls | crates/rig-venice/src/loop_runner.rs:102-126 | the calls of one response run once each, in order, with matching answers |
| ToolLoop.AnswersCarryToolText | crates/rig-venice/src/loop_runner.rs:112-125 | every answer carries the id of its call and the tool's own text, errors marked |
| ToolLoop.OneMore | crates/rig-venice/src/loop_runner.rs:112-125 | one more execution adds its call, its answer, and a trace entry exactly if the output parses |
| ToolLoop.CallsOfConcat | crates/rig-venice/src/loop_runner.rs:84-91 | the calls of a response are collected in order |
| ToolLoop.CallsOfOne | crates/rig-venice/src/loop_runner.rs:84-91 | a content is collected exactly if it is a call |
| ToolLoop.ResponseAnswered | crates/rig-venice/src/loop_runner.rs:97-134 | a response whose calls are answered in order extends the conversation by exactly those answers and keeps it alternating |
| ToolLoop.EveryRequestIsGood | crates/rig-venice/src/loop_runner.rs:73-135 | the k-th request has 2k+1 alternating messages and continues the one before |
| ToolLoop.FirstArgsIsFirst | crates/rig-venice/src/loop_runner.rs:108-110 | the final arguments are those of the first call to the final tool, and absent exactly without one |
| ToolLoop.ToolResultIsLatest | crates/rig-venice/src/loop_runner.rs:31-39 | a tool's result is its most recent one, and absent exactly without any |
| Autonomous.LatestPerOutcome | native/src/services/autonomous.rs:126-142 | the loop builds the map of newest ticks |
| Autonomous.LatestIsNewest | native/src/services/autonomous.rs:126-142 | each entry is the newest tick of its outcome, the first of equal timestamps |
| Autonomous.TriggerLoop.PollFixture | native/src/services/autonomous.rs:144-195 | remembered prices, limiter and trigger after a poll |
| Autonomous.TriggerLoop.DiffPrices | native/src/services/autonomous.rs:159-179 | the diff loop: remembered prices and the first outcome that moved |
| Autonomous.DiffIsOrderFree | native/src/services/autonomous.rs:159-179 | whether something moved and what is remembered do not depend on the order of the outcomes |
| Autonomous.RunInvariant | native/src/services/autonomous.rs:159-195 | over every run the remembered prices are the last quoted ones, triggers of a fixture are at least the minimum interval apart, and the limiter holds exactly the last trigger of every fixture that fired |
| Autonomous.TriggersAnHourApart | native/src/services/autonomous.rs:38 | two triggers of a fixture are an hour apart |
| Autonomous.MovedIff | native/src/services/autonomous.rs:169-176 | an outcome moved exactly if its price rose or fell by the threshold in percent of a positive previous price |
| Autonomous.LastQuotedIsLatest | native/src/services/autonomous.rs:159-179 | the remembered price is that of the latest poll that quoted the outcome |
| Autonomous.LastFiredIsLatest | native/src/services/autonomous.rs:183-195 | the last trigger in the list is the latest one of its fixture |
| Autonomous.FiresIff | native/src/services/autonomous.rs:159-195 | a poll fires exactly when some outcome moved by the threshold since the previous poll that quoted it and the last trigger of the fixture, if any, is long enough ago |

## Left out

- Rounding, NaN, infinities and the guards against them; the widths of the `u32` and `i32` counters.
- Timestamps, theses, reasons, narratives and the texts of failure messages.
- HTTP, RPC, Tauri, the UI, CoralOS sessions and the language model itself: their answers are parameters.
- WagerRun.CarryingTrailSettlesIff: is about containers that close in the trail; one that does not swallows text behind
  it, and then only `RunSettlesIff` applies.
- WagerRun.ForwardedOutcome: whether the orchestrator delegates at all, which takes a signal and the settlement track, is
  not modelled.
- The text of the guard's reasons is a parameter, and so is the guard's restatement of the round number.
- `Backtest.Confidence`: for a threshold of zero the value follows the infinity that the source's division yields.
- `Coordinator.Rule`: the comparison of lower-cased names is a parameter, so zero-sum holds for every such rule.
- The settlement signature's byte slicing of the reference, which can panic inside a multi-byte character.
- `push_debate`, `next_debate_round`, `extract_odds` and the early returns of `propose_wager`: single updates.
- `fair_probabilities` and its tool, `extract_stats`, `fill_side`, `parse_h2h`, `as_map` and `drivers_summary`: parsing and
  normalisation without consequences for the theorems here.
- `num` and `quoted` of the wire grammar; the round number travels as a scalar text.
- `parse_live_fixtures`, `parse_market_rows`, the fetch loops and `latest_score_in_window`: their results are inputs.
- `avg_winning_confidence`, sessions and the rest of the leaderboard.
- `BudgetGuard`, `StepCounter`, policy gates, status specialists and the trading and fan-pundit delegations: one branch each.

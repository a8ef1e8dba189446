/** The settlement exchange on the wire: the request, and what the agent decides on it
    (native/src/services/agent/runtime/settlement_delegation.rs and
    crates/agents/settlement-agent/src/main.rs). */
module SettleExchange {
  import opened Prelude
  import opened Wagers
  import opened ProofGuard
  import opened Settlement
  import opened Json
  import opened Wire
  import opened Delegation
  import opened GuardExchange

  /** `SETTLE_REQUESTED proofRef=… [toolTrail=…] wager=…`. */
  function SettleRequest(proofRef: string, trail: Option<Json>, payload: Json): Message {
    Request("SETTLE_REQUESTED", [Scalar("proofRef", proofRef)], trail, payload)
  }

  /** The part of the request before the wager. */
  function SettleHead(proofRef: string, trail: Option<Json>): string {
    RenderFrom("SETTLE_REQUESTED",
      [Scalar("proofRef", proofRef)] + (if trail.Some? then [Doc("toolTrail", trail.value)] else []))
  }

  lemma SettleIsHeadAndWager(proofRef: string, trail: Option<Json>, payload: Json)
    ensures Render(SettleRequest(proofRef, trail, payload))
         == SettleHead(proofRef, trail) + " " + FieldText(Doc("wager", payload))
  {
    var fields := SettleRequest(proofRef, trail, payload).fields;
    assert fields[..|fields| - 1]
        == [Scalar("proofRef", proofRef)] + (if trail.Some? then [Doc("toolTrail", trail.value)] else []);
  }

  /** The request as text. */
  lemma SettleRequestText(proofRef: string, trail: Option<Json>, payload: Json)
    ensures Render(SettleRequest(proofRef, trail, payload)) ==
      "SETTLE_REQUESTED" + " " + ("proofRef" + "=" + proofRef)
      + (if trail.Some? then " " + ("toolTrail" + "=" + Print(trail.value)) else "")
      + " " + ("wager" + "=" + Print(payload))
  {
    SettleIsHeadAndWager(proofRef, trail, payload);
    HeadWithoutTrail(proofRef);
    if trail.Some? {
      HeadWithTrail(proofRef, trail.value);
      SpacedConcat(SettleHead(proofRef, None), FieldText(Doc("toolTrail", trail.value)));
    } else {
      assert SettleHead(proofRef, None) + "" == SettleHead(proofRef, None);
    }
  }

  lemma SpacedConcat(a: string, b: string)
    ensures a + " " + b == a + (" " + b)
  {}

  /** The reference carries no eligible `wager=` of its own. */
  ghost predicate CleanRef(proofRef: string) {
    NoEligible(FieldText(Scalar("proofRef", proofRef)), "wager")
  }

  /** The container that the reference carries, if one closes in it. */
  ghost function RefContainer(proofRef: string): Option<string> {
    JsonValue(FieldText(Scalar("proofRef", proofRef)), "wager")
  }

  /** The head is clean exactly if the reference and the trail are. */
  lemma HeadIsCleanIff(proofRef: string, trail: Option<Json>)
    ensures NoEligible(SettleHead(proofRef, trail), "wager") <==> CleanRef(proofRef) && CleanTrail(trail)
  {
    RequestKeysAreTokens();
    SettleTokens();
    RefIsCleanIff(proofRef);
    if trail.Some? {
      HeadWithTrail(proofRef, trail.value);
      DocCleanIff("toolTrail", trail.value, "wager");
      NoEligibleSplit(SettleHead(proofRef, None), FieldText(Doc("toolTrail", trail.value)), "wager");
    }
  }

  lemma RefIsCleanIff(proofRef: string)
    ensures NoEligible(SettleHead(proofRef, None), "wager") <==> CleanRef(proofRef)
  {
    RequestKeysAreTokens();
    SettleTokens();
    NoEligibleBefore("SETTLE_REQUESTED", [], "wager");
    HeadWithoutTrail(proofRef);
    NoEligibleSplit("SETTLE_REQUESTED", FieldText(Scalar("proofRef", proofRef)), "wager");
  }

  lemma HeadWithoutTrail(proofRef: string)
    ensures SettleHead(proofRef, None) == "SETTLE_REQUESTED" + " " + FieldText(Scalar("proofRef", proofRef))
  {
    var fields := [Scalar("proofRef", proofRef)];
    assert fields + [] == fields;
    assert fields[..|fields| - 1] == [];
    assert RenderFrom("SETTLE_REQUESTED", fields)
        == RenderFrom("SETTLE_REQUESTED", []) + " " + FieldText(fields[|fields| - 1]);
  }

  lemma HeadWithTrail(proofRef: string, trail: Json)
    ensures SettleHead(proofRef, Some(trail)) == SettleHead(proofRef, None) + " " + FieldText(Doc("toolTrail", trail))
  {
    var f, t := Scalar("proofRef", proofRef), Doc("toolTrail", trail);
    var fields := [f] + [t];
    assert [f] + [] == [f];
    assert fields[..|fields| - 1] == [f] && fields[|fields| - 1] == t;
    assert RenderFrom("SETTLE_REQUESTED", fields) == RenderFrom("SETTLE_REQUESTED", [f]) + " " + FieldText(t);
  }

  /** The wager that the settlement agent finds in the request. */
  ghost function AgentReads(w: Wager, proofRef: string, trail: Option<Json>, p: Protocol): Option<Wager> {
    ReadWager(Render(SettleRequest(proofRef, trail, p.encode(w))), p.decode)
  }

  /** Whatever the reference and the trail hold, the agent decides on the wager it finds in the text and the
      first word of the reference. */
  lemma AgentDecidesOnText(proofRef: string, trail: Option<Json>, payload: Json, decode: Decode)
    ensures var text := Render(SettleRequest(proofRef, trail, payload));
            Replied(text, decode) ==
              match ReadWager(text, decode)
              case None => MalformedPayload
              case Some(w) => Answer(w.wagerId, Decide(w, Some(UntilSpace(proofRef))))
  {
    var m := SettleRequest(proofRef, trail, payload);
    SettleTokens();
    VerbRecovered(m);
    assert m.fields[0] == Scalar("proofRef", proofRef);
    FirstScalarRecovered(m.verb, m.fields, "proofRef", proofRef);
  }

  /** And the wager it finds is the one that was sent if the reference and the trail are clean; otherwise it
      is the container that one of them carries, if that closes before the wager. */
  lemma SettleRequestIsFaithful(w: Wager, proofRef: string, trail: Option<Json>, p: Protocol)
    requires Survives(p.encode, p.decode, w)
    ensures var head := SettleHead(proofRef, trail);
            && (NoEligible(head, "wager") ==> AgentReads(w, proofRef, trail, p) == Some(w))
            && (!NoEligible(head, "wager") && JsonValue(head, "wager").Some? ==>
                  AgentReads(w, proofRef, trail, p) == p.decode(JsonValue(head, "wager").value))
  {
    SettleIsHeadAndWager(proofRef, trail, p.encode(w));
    FieldBehindHead(SettleHead(proofRef, trail), p.encode(w), p.decode);
  }

  /** A container that the reference carries is read first, before anything the trail or the wager holds. */
  lemma AgentReadsReference(w: Wager, proofRef: string, trail: Option<Json>, p: Protocol)
    requires !CleanRef(proofRef) && RefContainer(proofRef).Some?
    ensures AgentReads(w, proofRef, trail, p) == p.decode(RefContainer(proofRef).value)
  {
    var field := FieldText(Scalar("proofRef", proofRef));
    RequestKeysAreTokens();
    SettleTokens();
    NoEligibleBefore("SETTLE_REQUESTED", [], "wager");
    HeadWithoutTrail(proofRef);
    RefIsCleanIff(proofRef);
    CleanPartIsSkipped("SETTLE_REQUESTED", field, "wager");
    HeadStartsWithRef(proofRef, trail);
    HeadDecides(w, proofRef, trail, p);
  }

  /** Adding the trail does not change what the reference carries. */
  lemma HeadStartsWithRef(proofRef: string, trail: Option<Json>)
    requires !NoEligible(SettleHead(proofRef, None), "wager") && JsonValue(SettleHead(proofRef, None), "wager").Some?
    ensures !NoEligible(SettleHead(proofRef, trail), "wager")
    ensures JsonValue(SettleHead(proofRef, trail), "wager") == JsonValue(SettleHead(proofRef, None), "wager")
  {
    RequestKeysAreTokens();
    if trail.Some? {
      HeadWithTrail(proofRef, trail.value);
      EarlierDecides(SettleHead(proofRef, None), FieldText(Doc("toolTrail", trail.value)), "wager");
      NoEligibleSplit(SettleHead(proofRef, None), FieldText(Doc("toolTrail", trail.value)), "wager");
    }
  }

  /** Behind a clean reference, a container that the trail carries is read before the wager. */
  lemma AgentReadsTrail(w: Wager, proofRef: string, trail: Option<Json>, p: Protocol)
    requires CleanRef(proofRef) && TrailContainer(trail).Some?
    ensures AgentReads(w, proofRef, trail, p) == p.decode(TrailContainer(trail).value)
  {
    RequestKeysAreTokens();
    TrailContainerIsDirty(trail);
    RefIsCleanIff(proofRef);
    HeadWithTrail(proofRef, trail.value);
    CleanPartIsSkipped(SettleHead(proofRef, None), FieldText(Doc("toolTrail", trail.value)), "wager");
    HeadIsCleanIff(proofRef, trail);
    HeadDecides(w, proofRef, trail, p);
  }

  lemma HeadDecides(w: Wager, proofRef: string, trail: Option<Json>, p: Protocol)
    requires !NoEligible(SettleHead(proofRef, trail), "wager") && JsonValue(SettleHead(proofRef, trail), "wager").Some?
    ensures AgentReads(w, proofRef, trail, p) == p.decode(JsonValue(SettleHead(proofRef, trail), "wager").value)
  {
    RequestKeysAreTokens();
    SettleIsHeadAndWager(proofRef, trail, p.encode(w));
    EarlierDecides(SettleHead(proofRef, trail), FieldText(Doc("wager", p.encode(w))), "wager");
  }

  // ---- The delegation ----------------------------------------------------

  /** It needs a reference, renders a request, and gets the agent's reply. */
  ghost function Requested(w: Wager, trail: Option<Json>, p: Protocol): Option<Reply> {
    match w.proofRef
    case None => None
    case Some(pr) => Some(Replied(Render(SettleRequest(pr, trail, p.encode(w))), p.decode))
  }

  predicate Settles(outcome: Option<Reply>) {
    outcome.Some? && outcome.value.Answer? && outcome.value.verdict.Settle?
  }

  lemma SettleTokens()
    ensures IsToken("SETTLE_REQUESTED") && Uppercase("SETTLE_REQUESTED") == "SETTLE_REQUESTED"
    ensures IsToken("proofRef") && "proofRef" != "toolTrail" && "proofRef" != "wager"
  {
    UpperIsToken("SETTLE_REQUESTED");
    assert "proofRef"[0] == 'p' && "toolTrail"[0] == 't' && "wager"[0] == 'w';
  }

  /** A token that the settlement agent takes for a proof reference. */
  predicate UsableToken(proofRef: Option<string>) {
    proofRef.Some? && Usable(Some(UntilSpace(proofRef.value)))
  }

  /** What a request carries can be settled. */
  ghost predicate CarriesSettleable(w: Wager, trail: Option<Json>, p: Protocol) {
    && w.proofRef.Some?
    && var found := AgentReads(w, w.proofRef.value, trail, p);
       found.Some? && Settleable(found.value)
  }

  /** The delegation settles, for every wager, reference and trail, exactly if the first word of the reference
      is usable and the wager in the text, not the wager that was sent, can be settled. */
  lemma DelegationSettlesIff(w: Wager, trail: Option<Json>, p: Protocol)
    ensures Settles(Requested(w, trail, p)) <==> UsableToken(w.proofRef) && CarriesSettleable(w, trail, p)
  {
    if w.proofRef.Some? {
      var pr := w.proofRef.value;
      AgentDecidesOnText(pr, trail, p.encode(w), p.decode);
      var found := AgentReads(w, pr, trail, p);
      if found.Some? { DecidesByFirstFailure(found.value, Some(UntilSpace(pr))); }
    }
  }

  /** With a clean reference and trail it is the wager that was sent. */
  lemma CleanDelegation(w: Wager, trail: Option<Json>, p: Protocol)
    requires Survives(p.encode, p.decode, w) && w.proofRef.Some? && CleanRef(w.proofRef.value) && CleanTrail(trail)
    ensures Requested(w, trail, p) == Some(Answer(w.wagerId, Decide(w, Some(UntilSpace(w.proofRef.value)))))
    ensures Settles(Requested(w, trail, p)) <==> UsableToken(w.proofRef) && Settleable(w)
  {
    var pr := w.proofRef.value;
    HeadIsCleanIff(pr, trail);
    SettleRequestIsFaithful(w, pr, trail, p);
    AgentDecidesOnText(pr, trail, p.encode(w), p.decode);
    DecidesByFirstFailure(w, Some(UntilSpace(pr)));
  }

  /** A well-shaped reference is clean, usable, and arrives whole. */
  lemma ValidProofRefIsHarmless(proofRef: string)
    requires IsValidProofRef(proofRef)
    ensures CleanRef(proofRef) && UntilSpace(proofRef) == proofRef && UsableToken(Some(proofRef))
  {
    ValidProofRefIsUnspaced(proofRef);
    WordsOfToken(proofRef);
    SettleTokens();
    RequestKeysAreTokens();
    OtherFieldNotEligible(Scalar("proofRef", proofRef), "wager");
  }
}

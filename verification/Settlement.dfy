/** The settlement agent's decision (crates/agents/settlement-agent/src/main.rs). */
module Settlement {
  import opened Prelude
  import opened Wagers
  import opened Wire

  datatype Rejection = MissingProof | WagerIsNoBet | NonPositiveEdge | ZeroStake

  datatype SettleVerdict = Settle(signature: string) | Reject(reason: Rejection)

  function Signature(w: Wager, proofToken: string): string {
    "devnet:settle:" + w.wagerId + ":" + proofToken[..if |proofToken| < 8 then |proofToken| else 8]
  }

  /** `handle` after parsing, then `simulate_settlement`: the checks in source order. The status is
      compared with `NoBet` only; nothing asks for `ProofPassed`. */
  function Decide(w: Wager, proofToken: Option<string>): SettleVerdict {
    var token := if proofToken.Some? then proofToken.value else "none";
    if token == "none" || token == "" then Reject(MissingProof)
    else if w.status == NoBet then Reject(WagerIsNoBet)
    else if w.edge <= 0.0 then Reject(NonPositiveEdge)
    else if w.stakeSol <= 0.0 then Reject(ZeroStake)
    else Settle(Signature(w, token))
  }

  /** A token that the agent takes for a proof reference. */
  predicate Usable(token: Option<string>) {
    token.Some? && token.value != "none" && token.value != ""
  }

  predicate Settleable(w: Wager) {
    w.status != NoBet && w.edge > 0.0 && w.stakeSol > 0.0
  }

  /** It settles exactly settleable wagers on usable tokens, and a rejection names the first check that
      fails. */
  lemma DecidesByFirstFailure(w: Wager, token: Option<string>)
    ensures Decide(w, token).Settle? <==> Usable(token) && Settleable(w)
    ensures Decide(w, token) == Reject(MissingProof) <==> !Usable(token)
    ensures Decide(w, token) == Reject(WagerIsNoBet) <==> Usable(token) && w.status == NoBet
    ensures Decide(w, token) == Reject(NonPositiveEdge) <==> Usable(token) && w.status != NoBet && w.edge <= 0.0
    ensures Decide(w, token) == Reject(ZeroStake) <==>
      Usable(token) && w.status != NoBet && w.edge > 0.0 && w.stakeSol <= 0.0
    ensures Decide(w, token).Settle? ==> Decide(w, token) == Settle(Signature(w, token.value))
  {}

  /** The pseudo-signature names the wager and the first eight characters of the token. */
  lemma SignatureNamesWager(w: Wager, token: string)
    ensures var s, k := Signature(w, token), |"devnet:settle:"| + |w.wagerId|;
            && |s| == k + 1 + (if |token| < 8 then |token| else 8)
            && "devnet:settle:" <= s && s[|"devnet:settle:"|..k] == w.wagerId
            && s[k] == ':' && s[k + 1..] <= token
  {
    var front := "devnet:settle:";
    var s, short := Signature(w, token), token[..if |token| < 8 then |token| else 8];
    assert s == front + w.wagerId + ":" + short;
  }

  datatype Reply = Ignored | MalformedPayload | Answer(wagerId: string, verdict: SettleVerdict)

  /** The reply to a mention, given the deserialiser for wager payloads. */
  ghost function Replied(text: string, decode: string -> Option<Wager>): Reply {
    if Verb(text) != "SETTLE_REQUESTED" then Ignored
    else
      match JsonValue(text, "wager")
      case None => MalformedPayload
      case Some(payload) =>
        match decode(payload)
        case None => MalformedPayload
        case Some(w) => Answer(w.wagerId, Decide(w, Tok(text, "proofRef")))
  }

  /** `handle`, with its early returns. */
  method Handle(text: string, decode: string -> Option<Wager>) returns (reply: Reply)
    ensures reply == Replied(text, decode)
  {
    if Verb(text) != "SETTLE_REQUESTED" {
      return Ignored;
    }
    var payload := JsonVal(text, "wager");
    if payload.None? {
      return MalformedPayload;
    }
    var parsed := decode(payload.value);
    if parsed.None? {
      return MalformedPayload;
    }
    var wager, found := parsed.value, Tok(text, "proofRef");
    var proofRef := if found.Some? then found.value else "none";
    if proofRef == "none" || proofRef == "" {
      return Answer(wager.wagerId, Reject(MissingProof));
    }
    if wager.status == NoBet {
      return Answer(wager.wagerId, Reject(WagerIsNoBet));
    }
    if wager.edge <= 0.0 {
      return Answer(wager.wagerId, Reject(NonPositiveEdge));
    }
    if wager.stakeSol <= 0.0 {
      return Answer(wager.wagerId, Reject(ZeroStake));
    }
    reply := Answer(wager.wagerId, Settle(Signature(wager, proofRef)));
  }
}

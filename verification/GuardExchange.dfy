/** The proof-guard exchange on the wire: request, `handle`, reply, and what the orchestrator reads back
    (crates/agents/proof-guard-agent/src/main.rs and
    native/src/services/agent/runtime/wager_proof_delegation.rs). */
module GuardExchange {
  import opened Prelude
  import opened Wagers
  import opened ProofGuard
  import opened Json
  import opened Wire
  import opened WireJson
  import opened Delegation

  type Encode = Wager -> Json

  type Decode = string -> Option<Wager>

  /** What the processes agree on and the guard's own settings: the serialiser and deserialiser of
      wagers, the tolerance, how the guard restates the round it read, and its reasons for a failure,
      which may quote the wager's reference. */
  datatype Protocol = Protocol(
    encode: Encode,
    decode: Decode,
    tol: real,
    restate: Option<string> -> string,
    explain: Wager -> string)

  /** This wager survives the wire: it is printed as an object from which the deserialiser recovers it. No
      text can carry every real number, so it is asked only of the wagers that are sent. */
  predicate Survives(encode: Encode, decode: Decode, w: Wager) {
    encode(w).Obj? && decode(Print(encode(w))) == Some(w)
  }

  /** The restated round is a number, so it holds no whitespace. */
  ghost predicate Sane(p: Protocol) {
    p.tol >= 0.0 && forall text :: Unspaced(p.restate(text))
  }

  /** `WAGER_PROOF_REQUESTED round=… wagerId=… [toolTrail=…] wager=…`. */
  function GuardRequest(round: string, w: Wager, trail: Option<Json>, encode: Encode): Message {
    Request("WAGER_PROOF_REQUESTED", [Scalar("round", round), Scalar("wagerId", w.wagerId)], trail, encode(w))
  }

  /** The scalar head of the reply. */
  function VerdictFields(round: string, v: Verdict): seq<Field> {
    [Scalar("round", round), Scalar("wagerId", v.wager.wagerId),
     Scalar("passed", if v.passed then "true" else "false")]
  }

  /** The reasons travel as quoted text, spaces and all. */
  function ReasonText(reason: string): string {
    FieldText(Scalar("reason", "\"" + reason + "\""))
  }

  function ReplyHead(round: string, v: Verdict, reason: string): string {
    var head := RenderFrom("WAGER_PROOF_VERDICT", VerdictFields(round, v));
    if v.passed then head else head + " " + ReasonText(reason)
  }

  function ReplyText(round: string, v: Verdict, reason: string, encode: Encode): string {
    ReplyHead(round, v, reason) + " " + FieldText(Doc("wager", encode(v.wager)))
  }

  function MalformedReply(round: string): string {
    RenderFrom("WAGER_PROOF_VERDICT",
      [Scalar("round", round), Scalar("wagerId", "unknown"), Scalar("passed", "false")])
    + " " + ReasonText("malformed delegation: no wager payload")
  }

  ghost function ReadWager(text: string, decode: Decode): Option<Wager> {
    match JsonValue(text, "wager")
    case None => None
    case Some(payload) => decode(payload)
  }

  /** The guard's reply to a mention; an empty text ignores it. */
  ghost function GuardReply(text: string, p: Protocol): string {
    if Verb(text) != "WAGER_PROOF_REQUESTED" then ""
    else
      var round := p.restate(Tok(text, "round"));
      match ReadWager(text, p.decode)
      case None => MalformedReply(round)
      case Some(w) => ReplyText(round, Verified(w, w.proofRef, p.tol), p.explain(w), p.encode)
  }

  /** `handle`: parse, verify, render. */
  method Handle(text: string, p: Protocol) returns (reply: string)
    ensures reply == GuardReply(text, p)
  {
    if Verb(text) != "WAGER_PROOF_REQUESTED" {
      return "";
    }
    var round := p.restate(Tok(text, "round"));
    var payload := JsonVal(text, "wager");
    if payload.None? {
      return MalformedReply(round);
    }
    var parsed := p.decode(payload.value);
    if parsed.None? {
      return MalformedReply(round);
    }
    var verdict := Verify(parsed.value, parsed.value.proofRef, p.tol);
    reply := ReplyText(round, verdict, p.explain(parsed.value), p.encode);
  }

  /** The part of the request before the wager. */
  function GuardHead(round: string, w: Wager, trail: Option<Json>): string {
    RenderFrom("WAGER_PROOF_REQUESTED",
      [Scalar("round", round), Scalar("wagerId", w.wagerId)]
      + (if trail.Some? then [Doc("toolTrail", trail.value)] else []))
  }

  lemma RequestIsHeadAndWager(round: string, w: Wager, trail: Option<Json>, encode: Encode)
    ensures Render(GuardRequest(round, w, trail, encode))
         == GuardHead(round, w, trail) + " " + FieldText(Doc("wager", encode(w)))
  {
    var fields := GuardRequest(round, w, trail, encode).fields;
    assert fields[..|fields| - 1] == [Scalar("round", round), Scalar("wagerId", w.wagerId)]
        + (if trail.Some? then [Doc("toolTrail", trail.value)] else []);
  }

  /** The reasoning trail holds no text that could pass for the wager. */
  ghost predicate CleanTrail(trail: Option<Json>) {
    trail.Some? ==> !HasLookalike(trail.value, "wager")
  }

  /** The container that the trail carries, if one closes in it. */
  ghost function TrailContainer(trail: Option<Json>): Option<string> {
    if trail.Some? then JsonValue(FieldText(Doc("toolTrail", trail.value)), "wager") else None
  }

  lemma TrailContainerIsDirty(trail: Option<Json>)
    requires TrailContainer(trail).Some?
    ensures !CleanTrail(trail)
  {
    RequestKeysAreTokens();
    DocCleanIff("toolTrail", trail.value, "wager");
    if NoEligible(FieldText(Doc("toolTrail", trail.value)), "wager") {
      NothingToRead(FieldText(Doc("toolTrail", trail.value)));
    }
  }

  /** Only the trail can spoil the head of a request. */
  lemma GuardHeadCleanIff(round: string, w: Wager, trail: Option<Json>)
    requires Unspaced(round) && Unspaced(w.wagerId)
    ensures NoEligible(GuardHead(round, w, None), "wager")
    ensures NoEligible(GuardHead(round, w, trail), "wager") <==> CleanTrail(trail)
  {
    var verb, scalars := "WAGER_PROOF_REQUESTED", [Scalar("round", round), Scalar("wagerId", w.wagerId)];
    GuardVerbIsToken();
    GuardKeysAreTokens();
    RequestKeysAreTokens();
    assert scalars[0].value == round && scalars[1].value == w.wagerId;
    NoEligibleBefore(verb, scalars, "wager");
    assert scalars + [] == scalars;
    if trail.Some? {
      GuardHeadWithTrail(round, w, trail.value);
      DocCleanIff("toolTrail", trail.value, "wager");
      NoEligibleSplit(GuardHead(round, w, None), FieldText(Doc("toolTrail", trail.value)), "wager");
    }
  }

  lemma GuardHeadWithTrail(round: string, w: Wager, trail: Json)
    ensures GuardHead(round, w, Some(trail)) == GuardHead(round, w, None) + " " + FieldText(Doc("toolTrail", trail))
  {
    var scalars, t := [Scalar("round", round), Scalar("wagerId", w.wagerId)], Doc("toolTrail", trail);
    assert scalars + [] == scalars;
    assert (scalars + [t])[..2] == scalars;
  }

  /** The request as text. */
  lemma GuardRequestText(round: string, w: Wager, encode: Encode)
    ensures Render(GuardRequest(round, w, None, encode)) ==
      "WAGER_PROOF_REQUESTED" + " " + ("round" + "=" + round) + " " + ("wagerId" + "=" + w.wagerId)
      + " " + ("wager" + "=" + Print(encode(w)))
  {
    var verb, fields := "WAGER_PROOF_REQUESTED", [Scalar("round", round), Scalar("wagerId", w.wagerId)];
    RequestIsHeadAndWager(round, w, None, encode);
    assert fields + [] == fields;
    assert fields[..1] == [fields[0]] && fields[..1][..0] == [];
    assert RenderFrom(verb, fields[..1]) == verb + " " + FieldText(fields[0]);
    assert RenderFrom(verb, fields) == RenderFrom(verb, fields[..1]) + " " + FieldText(fields[1]);
  }

  /** A container that the trail carries is what the guard reads, whatever wager was sent. */
  lemma GuardReadsTrail(round: string, w: Wager, trail: Option<Json>, encode: Encode)
    requires Unspaced(round) && Unspaced(w.wagerId) && TrailContainer(trail).Some?
    ensures JsonValue(Render(GuardRequest(round, w, trail, encode)), "wager") == TrailContainer(trail)
  {
    GuardKeysAreTokens();
    TrailContainerIsDirty(trail);
    GuardHeadCleanIff(round, w, trail);
    GuardHeadWithTrail(round, w, trail.value);
    CleanPartIsSkipped(GuardHead(round, w, None), FieldText(Doc("toolTrail", trail.value)), "wager");
    RequestIsHeadAndWager(round, w, trail, encode);
    EarlierDecides(GuardHead(round, w, trail), FieldText(Doc("wager", encode(w))), "wager");
  }

  /** What the guard reads in a request: the wager that was sent exactly if the reasoning trail that rides
      along holds no lookalike; otherwise what the trail smuggles in. */
  lemma GuardReadsWager(round: string, w: Wager, trail: Option<Json>, encode: Encode, decode: Decode)
    requires Survives(encode, decode, w) && Unspaced(round) && Unspaced(w.wagerId)
    ensures Verb(Render(GuardRequest(round, w, trail, encode))) == "WAGER_PROOF_REQUESTED"
    ensures ReadsBehind(GuardHead(round, w, trail), encode(w), decode)
    ensures NoEligible(GuardHead(round, w, trail), "wager") <==> CleanTrail(trail)
    ensures CleanTrail(trail) ==> ReadWager(Render(GuardRequest(round, w, trail, encode)), decode) == Some(w)
  {
    GuardVerbIsToken();
    VerbRecovered(GuardRequest(round, w, trail, encode));
    RequestIsHeadAndWager(round, w, trail, encode);
    GuardHeadCleanIff(round, w, trail);
    FieldBehindHead(GuardHead(round, w, trail), encode(w), decode);
  }

  lemma GuardVerbIsToken()
    ensures IsToken("WAGER_PROOF_REQUESTED") && Uppercase("WAGER_PROOF_REQUESTED") == "WAGER_PROOF_REQUESTED"
    ensures IsToken("WAGER_PROOF_VERDICT")
  {
    UpperIsToken("WAGER_PROOF_REQUESTED");
    UpperIsToken("WAGER_PROOF_VERDICT");
  }

  lemma GuardKeysAreTokens()
    ensures IsToken("round") && IsToken("wagerId") && IsToken("wager") && IsToken("passed") && IsToken("reason")
    ensures "round" != "wagerId" && "round" != "toolTrail" && "round" != "wager" && "wagerId" != "toolTrail"
    ensures "wagerId" != "wager" && "passed" != "wager" && "reason" != "wager"
  {
    assert "round"[0] == 'r' && "toolTrail"[0] == 't' && "wager"[0] == 'w' && "passed"[0] == 'p' && "reason"[0] == 'r';
    assert |"wagerId"| == 7 && |"wager"| == 5 && "wagerId"[0] == 'w';
  }

  /** Only the reasons of a failing verdict can spoil the head of a reply. */
  lemma HeadCleanIff(round: string, v: Verdict, reason: string)
    requires Unspaced(round) && Unspaced(v.wager.wagerId)
    ensures NoEligible(ReplyHead(round, v, reason), "wager") <==> v.passed || NoEligible(ReasonText(reason), "wager")
  {
    VerdictFieldsAreClean(round, v);
    GuardKeysAreTokens();
    var head := RenderFrom("WAGER_PROOF_VERDICT", VerdictFields(round, v));
    NoEligibleSplit(head, ReasonText(reason), "wager");
  }

  lemma VerdictFieldsAreClean(round: string, v: Verdict)
    requires Unspaced(round) && Unspaced(v.wager.wagerId)
    ensures NoEligible(RenderFrom("WAGER_PROOF_VERDICT", VerdictFields(round, v)), "wager")
  {
    var fields := VerdictFields(round, v);
    GuardKeysAreTokens();
    GuardVerbIsToken();
    assert Unspaced("true") && Unspaced("false");
    assert fields[0].value == round && fields[1].value == v.wager.wagerId;
    NoEligibleBefore("WAGER_PROOF_VERDICT", fields, "wager");
  }

  /** Reading a text that ends in a wager field: that field is found exactly if nothing before it is eligible;
      otherwise the container that the earlier part smuggles in is read, if it closes there. */
  ghost predicate ReadsBehind(head: string, payload: Json, decode: Decode) {
    var text := head + " " + FieldText(Doc("wager", payload));
    && (Search(text, "wager=", 0) == Some(|head| + 1) <==> NoEligible(head, "wager"))
    && (NoEligible(head, "wager") ==> ReadWager(text, decode) == decode(Print(payload)))
    && (!NoEligible(head, "wager") && JsonValue(head, "wager").Some? ==>
          ReadWager(text, decode) == decode(JsonValue(head, "wager").value))
  }

  lemma FieldBehindHead(head: string, payload: Json, decode: Decode)
    requires IsContainer(payload)
    ensures ReadsBehind(head, payload, decode)
  {
    GuardKeysAreTokens();
    assert "wager" + "=" == "wager=";
    DocAtEndFoundIff(head, "wager", payload);
    if NoEligible(head, "wager") {
      DocAtEnd(head, "wager", payload);
    } else {
      EarlierDecides(head, FieldText(Doc("wager", payload)), "wager");
    }
  }

  /** What the orchestrator reads back, for every verdict and every reason: the verdict's own wager exactly if
      the verdict passed or its reasons hold no eligible `wager=`; otherwise what the reasons smuggle in. */
  lemma OrchestratorReadsVerdict(round: string, v: Verdict, reason: string, encode: Encode, decode: Decode)
    requires Survives(encode, decode, v.wager) && Unspaced(round) && Unspaced(v.wager.wagerId)
    ensures ReadsBehind(ReplyHead(round, v, reason), encode(v.wager), decode)
    ensures NoEligible(ReplyHead(round, v, reason), "wager") <==> v.passed || NoEligible(ReasonText(reason), "wager")
    ensures v.passed || NoEligible(ReasonText(reason), "wager") ==>
      ReadWager(ReplyText(round, v, reason, encode), decode) == Some(v.wager)
  {
    HeadCleanIff(round, v, reason);
    FieldBehindHead(ReplyHead(round, v, reason), encode(v.wager), decode);
  }

  /** Reasons without an equals sign are harmless: only a quoted reference can bring one in. */
  lemma PlainReasonIsClean(reason: string)
    requires '=' !in reason
    ensures NoEligible(ReasonText(reason), "wager")
  {
    GuardKeysAreTokens();
    PlainScalarIsClean("reason", "\"" + reason + "\"", "wager");
  }

  /** A text without an eligible key has nothing to read. */
  lemma NothingToRead(text: string)
    requires NoEligible(text, "wager")
    ensures JsonValue(text, "wager") == None
  {
    GuardKeysAreTokens();
    CommonKeysArePlain("wager");
    SearchFindsFirstEligible(text, "wager" + "=", 0);
  }

  lemma MalformedReplyIsUnreadable(round: string)
    requires Unspaced(round)
    ensures JsonValue(MalformedReply(round), "wager") == None
  {
    var fields := [Scalar("round", round), Scalar("wagerId", "unknown"), Scalar("passed", "false")];
    var reason := "malformed delegation: no wager payload";
    GuardKeysAreTokens();
    GuardVerbIsToken();
    assert Unspaced("unknown") && Unspaced("false");
    assert fields[0].value == round;
    NoEligibleBefore("WAGER_PROOF_VERDICT", fields, "wager");
    MalformedReasonIsPlain(reason);
    PlainReasonIsClean(reason);
    NoEligibleSplit(RenderFrom("WAGER_PROOF_VERDICT", fields), ReasonText(reason), "wager");
    NothingToRead(MalformedReply(round));
  }

  lemma MalformedReasonIsPlain(reason: string)
    requires reason == "malformed delegation: no wager payload"
    ensures '=' !in reason
  {}

  /** The orchestrator takes a reply for its own if it starts with the verb and mentions its wager id. */
  ghost predicate Matches(reply: string, wagerId: string) {
    "WAGER_PROOF_VERDICT" <= reply && exists i :: OccursAt(reply, "wagerId=" + wagerId, i)
  }

  /** Every verdict matches the id of the wager it is about. */
  lemma VerdictMatches(round: string, v: Verdict, reason: string, encode: Encode)
    ensures Matches(ReplyText(round, v, reason, encode), v.wager.wagerId)
  {
    var verb, fields := "WAGER_PROOF_VERDICT", VerdictFields(round, v);
    var head := RenderFrom(verb, fields);
    var i := IdInFields(round, v);
    VerbFirst(verb, fields);
    TextExtends(head, " ", ReasonText(reason));
    TextExtends(ReplyHead(round, v, reason), " ", FieldText(Doc("wager", encode(v.wager))));
    PrefixesChain(verb, head, ReplyText(round, v, reason, encode));
    OccursInLonger(head, ReplyText(round, v, reason, encode), "wagerId=" + v.wager.wagerId, i);
  }

  lemma IdInFields(round: string, v: Verdict) returns (i: nat)
    ensures OccursAt(RenderFrom("WAGER_PROOF_VERDICT", VerdictFields(round, v)), "wagerId=" + v.wager.wagerId, i)
  {
    var verb, fields, id := "WAGER_PROOF_VERDICT", VerdictFields(round, v), "wagerId=" + v.wager.wagerId;
    var front := RenderFrom(verb, fields[..1]) + " ";
    var tail := RenderPrefix(verb, fields, 2);
    assert fields[..2][..1] == fields[..1];
    assert "wagerId" + "=" == "wagerId=";
    assert RenderFrom(verb, fields[..2]) == front + id;
    i := |front|;
    Behind(front, id, tail);
  }

  lemma Behind(front: string, s: string, tail: string)
    ensures OccursAt(front + s + tail, s, |front|)
  {}

  lemma TextExtends(a: string, b: string, c: string)
    ensures a <= a + b + c
  {}

  lemma PrefixesChain(a: string, b: string, c: string)
    requires a <= b <= c
    ensures a <= c
  {}

  lemma OccursInLonger(text: string, longer: string, s: string, i: nat)
    requires text <= longer && OccursAt(text, s, i)
    ensures OccursAt(longer, s, i)
  {
    assert longer[i..i + |s|] == text[i..i + |s|];
  }

  /** The scalars of a reply can be read back: its round, its wager id, and whether it passed. */
  lemma VerdictScalars(round: string, v: Verdict, reason: string, encode: Encode)
    requires Unspaced(round) && Unspaced(v.wager.wagerId)
    ensures var text := ReplyText(round, v, reason, encode);
            && Verb(text) == "WAGER_PROOF_VERDICT"
            && Tok(text, "round") == Some(round)
            && Tok(text, "wagerId") == Some(v.wager.wagerId)
            && Tok(text, "passed") == Some(if v.passed then "true" else "false")
  {
    FieldsReadBack(round, v);
    ReplyKeepsVerb(round, v, reason, encode);
    ReplyKeepsTok(round, v, reason, encode, "round");
    ReplyKeepsTok(round, v, reason, encode, "wagerId");
    ReplyKeepsTok(round, v, reason, encode, "passed");
  }

  lemma FieldsReadBack(round: string, v: Verdict)
    requires Unspaced(round) && Unspaced(v.wager.wagerId)
    ensures var text := RenderFrom("WAGER_PROOF_VERDICT", VerdictFields(round, v));
            && Verb(text) == "WAGER_PROOF_VERDICT" && Words(text) != []
            && Tok(text, "round") == Some(round)
            && Tok(text, "wagerId") == Some(v.wager.wagerId)
            && Tok(text, "passed") == Some(if v.passed then "true" else "false")
  {
    FieldReadsBack(round, v, 0);
    FieldReadsBack(round, v, 1);
    FieldReadsBack(round, v, 2);
    VerbReadsBack(round, v);
  }

  lemma FieldReadsBack(round: string, v: Verdict, i: nat)
    requires Unspaced(round) && Unspaced(v.wager.wagerId) && i < 3
    ensures Tok(RenderFrom("WAGER_PROOF_VERDICT", VerdictFields(round, v)), VerdictFields(round, v)[i].key)
         == Some(VerdictFields(round, v)[i].value)
  {
    VerdictIsWellFormed(round, v);
    TokRecoversScalar(Message("WAGER_PROOF_VERDICT", VerdictFields(round, v)), i);
  }

  lemma VerbReadsBack(round: string, v: Verdict)
    ensures var text := RenderFrom("WAGER_PROOF_VERDICT", VerdictFields(round, v));
            Verb(text) == "WAGER_PROOF_VERDICT" && Words(text) != []
  {
    UpperIsToken("WAGER_PROOF_VERDICT");
    VerbRecovered(Message("WAGER_PROOF_VERDICT", VerdictFields(round, v)));
    WordsStartWithVerb("WAGER_PROOF_VERDICT", VerdictFields(round, v));
  }

  lemma ReplyKeepsTok(round: string, v: Verdict, reason: string, encode: Encode, key: string)
    requires Tok(RenderFrom("WAGER_PROOF_VERDICT", VerdictFields(round, v)), key).Some?
    ensures Tok(ReplyText(round, v, reason, encode), key)
         == Tok(RenderFrom("WAGER_PROOF_VERDICT", VerdictFields(round, v)), key)
  {
    TokReadsOn(RenderFrom("WAGER_PROOF_VERDICT", VerdictFields(round, v)), ReasonText(reason), key);
    TokReadsOn(ReplyHead(round, v, reason), FieldText(Doc("wager", encode(v.wager))), key);
  }

  lemma ReplyKeepsVerb(round: string, v: Verdict, reason: string, encode: Encode)
    requires Words(RenderFrom("WAGER_PROOF_VERDICT", VerdictFields(round, v))) != []
    ensures Verb(ReplyText(round, v, reason, encode))
         == Verb(RenderFrom("WAGER_PROOF_VERDICT", VerdictFields(round, v)))
  {
    WordsSplit(RenderFrom("WAGER_PROOF_VERDICT", VerdictFields(round, v)), ReasonText(reason));
    WordsSplit(ReplyHead(round, v, reason), FieldText(Doc("wager", encode(v.wager))));
  }

  /** What follows a space does not change the scalars that are there already. */
  lemma TokReadsOn(text: string, more: string, key: string)
    ensures Tok(text, key).Some? ==> Tok(text + " " + more, key) == Tok(text, key)
  {
    WordsSplit(text, more);
    FirstValueConcat(Words(text), Words(more), key);
  }

  lemma VerdictIsWellFormed(round: string, v: Verdict)
    requires Unspaced(round) && Unspaced(v.wager.wagerId)
    ensures WellFormed(Message("WAGER_PROOF_VERDICT", VerdictFields(round, v)))
  {
    var fields := VerdictFields(round, v);
    GuardVerbIsToken();
    GuardKeysAreTokens();
    FlagsAreUnspaced();
    assert fields[0].key == "round" && fields[1].key == "wagerId" && fields[2].key == "passed";
    assert "round"[0] == 'r' && "wagerId"[0] == 'w' && "passed"[0] == 'p';
    assert fields[0].value == round && fields[1].value == v.wager.wagerId;
  }

  lemma FlagsAreUnspaced()
    ensures Unspaced("true") && Unspaced("false")
  {}

  /** The whole exchange: request, `handle`, reply. The guard judges the wager it reads, and replies with the
      wager of that verdict; the orchestrator finds it there exactly if the verdict passed or its reasons are
      clean. A request in which nothing can be read gets a reply in which nothing can be read. */
  lemma ExchangeReturnsVerdict(round: string, w: Wager, trail: Option<Json>, p: Protocol)
    requires Sane(p)
    ensures var request := Render(GuardRequest(round, w, trail, p.encode));
            var reply, restated := GuardReply(request, p), p.restate(Tok(request, "round"));
            match ReadWager(request, p.decode)
            case None => ReadWager(reply, p.decode) == None
            case Some(seen) =>
              var v, reason := Verified(seen, seen.proofRef, p.tol), p.explain(seen);
              && reply == ReplyText(restated, v, reason, p.encode)
              && Matches(reply, seen.wagerId)
              && (Survives(p.encode, p.decode, v.wager) && Unspaced(seen.wagerId) ==>
                    && ReadsBehind(ReplyHead(restated, v, reason), p.encode(v.wager), p.decode)
                    && (NoEligible(ReplyHead(restated, v, reason), "wager") <==>
                          v.passed || NoEligible(ReasonText(reason), "wager"))
                    && (v.passed || NoEligible(ReasonText(reason), "wager") ==>
                          ReadWager(reply, p.decode) == Some(v.wager)))
  {
    var request := Render(GuardRequest(round, w, trail, p.encode));
    var restated := p.restate(Tok(request, "round"));
    GuardVerbIsToken();
    VerbRecovered(GuardRequest(round, w, trail, p.encode));
    match ReadWager(request, p.decode)
    case None => MalformedReplyIsUnreadable(restated);
    case Some(seen) =>
      var v := Verified(seen, seen.proofRef, p.tol);
      VerdictMatches(restated, v, p.explain(seen), p.encode);
      if Survives(p.encode, p.decode, v.wager) && Unspaced(seen.wagerId) {
        OrchestratorReadsVerdict(restated, v, p.explain(seen), p.encode, p.decode);
      }
  }
}

/** The multi-turn tool-calling loop (crates/rig-venice/src/loop_runner.rs). The model is an arbitrary
    oracle: each request carries a longer conversation than the one before, so a function of the
    conversation can answer every request in any way at all. */
module ToolLoop {
  import opened Prelude

  datatype Content = Text(text: string) | Call(id: string, name: string, args: string)

  datatype Answer = Answer(id: string, output: string)

  datatype Message =
    | UserText(prompt: string)
    | Assistant(contents: seq<Content>)
    | UserResults(answers: seq<Answer>)

  /** A response carries at least one content. */
  datatype Completion = Failed | Choice(first: Content, rest: seq<Content>)

  datatype ToolOutput = Output(text: string) | ToolError(text: string)

  type Model = seq<Message> -> Completion

  /** Tools may answer differently each time: the first argument counts the executions so far. */
  type Tools = (nat, string, string) -> ToolOutput

  /** `serde_json::from_str` on a tool's output. */
  type Parse = string -> Option<string>

  datatype LoopError = CompletionFailed | EmptyResponse | EmptyResults

  datatype Traced = Traced(name: string, value: string)

  datatype Result = Error(error: LoopError) | Outcome(toolCalls: seq<Traced>, finalArgs: Option<string>)

  function CallsOf(contents: seq<Content>): (r: seq<Content>)
    ensures forall c | c in r :: c.Call?
    ensures |r| <= |contents|
  {
    if contents == [] then []
    else (if contents[0].Call? then [contents[0]] else []) + CallsOf(contents[1..])
  }

  function ContentsOf(c: Completion): seq<Content> {
    if c.Failed? then [] else [c.first] + c.rest
  }

  /** The arguments of the first call to the named tool. */
  function FirstArgs(calls: seq<Content>, name: string): Option<string>
    requires forall c | c in calls :: c.Call?
  {
    if calls == [] then None
    else
      var earlier, last := FirstArgs(calls[..|calls| - 1], name), calls[|calls| - 1];
      if earlier.Some? then earlier else if last.name == name then Some(last.args) else None
  }

  lemma {:induction false} FirstArgsIsFirst(calls: seq<Content>, name: string)
    requires forall c | c in calls :: c.Call?
    ensures FirstArgs(calls, name).None? <==> forall c | c in calls :: c.name != name
    ensures forall i | 0 <= i < |calls| && calls[i].name == name && (forall j | 0 <= j < i :: calls[j].name != name) ::
      FirstArgs(calls, name) == Some(calls[i].args)
  {
    if calls != [] {
      FirstArgsIsFirst(calls[..|calls| - 1], name);
    }
  }

  /** One tool execution: the call and what came of it. */
  datatype Executed = Executed(call: Content, output: ToolOutput)

  function TraceOf(done: seq<Executed>, parse: Parse): seq<Traced>
    requires forall e | e in done :: e.call.Call?
  {
    if done == [] then []
    else
      var front, last := done[..|done| - 1], done[|done| - 1];
      TraceOf(front, parse)
      + (if last.output.Output? && parse(last.output.text).Some?
         then [Traced(last.call.name, parse(last.output.text).value)] else [])
  }

  function Rendered(o: ToolOutput): string {
    match o
    case Output(text) => text
    case ToolError(text) => "tool error: " + text
  }

  /** Each call of the assistant message is answered exactly once, in order, by the user message. */
  predicate Answers(assistant: Message, user: Message) {
    && assistant.Assistant? && user.UserResults?
    && CallsOf(assistant.contents) != []
    && InOrder(CallsOf(assistant.contents), user.answers)
  }

  predicate InOrder(calls: seq<Content>, answers: seq<Answer>)
    requires forall c | c in calls :: c.Call?
  {
    |answers| == |calls| && forall i | 0 <= i < |calls| :: answers[i].id == calls[i].id
  }

  /** A user text, then any number of answered assistant messages. */
  predicate Alternating(conversation: seq<Message>) {
    if |conversation| <= 1 then |conversation| == 1 && conversation[0].UserText?
    else
      && |conversation| >= 3
      && Alternating(conversation[..|conversation| - 2])
      && Answers(conversation[|conversation| - 2], conversation[|conversation| - 1])
  }

  function CallsTo(model: Model, request: seq<Message>): (r: seq<Content>)
    ensures forall c | c in r :: c.Call?
  {
    CallsOf(ContentsOf(model(request)))
  }

  /** All calls of the responses, in order. */
  function AllCalls(model: Model, requests: seq<seq<Message>>): seq<Content> {
    if requests == [] then []
    else AllCalls(model, requests[..|requests| - 1]) + CallsTo(model, requests[|requests| - 1])
  }

  function CallsDone(done: seq<Executed>): seq<Content> {
    if done == [] then [] else CallsDone(done[..|done| - 1]) + [done[|done| - 1].call]
  }

  /** Every answer in the conversation, in order. */
  function AnswersIn(conversation: seq<Message>): seq<Answer> {
    if conversation == [] then []
    else
      var last := conversation[|conversation| - 1];
      AnswersIn(conversation[..|conversation| - 1]) + (if last.UserResults? then last.answers else [])
  }

  /** The answers that the executions call for. */
  function AnswersOf(done: seq<Executed>): seq<Answer>
    requires forall e | e in done :: e.call.Call?
  {
    seq(|done|, i requires 0 <= i < |done| => Answer(done[i].call.id, Rendered(done[i].output)))
  }

  /** The executions are genuine: each output is what the tool gave for the arguments of its call. */
  predicate Genuine(tools: Tools, done: seq<Executed>) {
    forall i | 0 <= i < |done| ::
      done[i].call.Call? && done[i].output == tools(i, done[i].call.name, done[i].call.args)
  }

  /** The next request is this one, the model's response and its answers; the response made calls, but
      none to the final tool. */
  predicate Continues(model: Model, finalTool: string, request: seq<Message>, next: seq<Message>) {
    && |next| == |request| + 2
    && next[..|request|] == request
    && next[|request|] == Assistant(ContentsOf(model(request)))
    && CallsTo(model, request) != []
    && FirstArgs(CallsTo(model, request), finalTool) == None
  }

  /** The requests of a run: each alternates, the first is the prompt, each later one continues the last. */
  predicate GoodRequests(model: Model, prompt: string, finalTool: string, requests: seq<seq<Message>>) {
    requests == [] ||
    (var front, last := requests[..|requests| - 1], requests[|requests| - 1];
     && GoodRequests(model, prompt, finalTool, front)
     && Alternating(last)
     && MayFollow(model, prompt, finalTool, front, last))
  }

  predicate MayFollow(model: Model, prompt: string, finalTool: string, requests: seq<seq<Message>>,
      next: seq<Message>)
  {
    if requests == [] then next == [UserText(prompt)]
    else Continues(model, finalTool, requests[|requests| - 1], next)
  }

  /** How a run ends at its last request. */
  predicate EndsAt(model: Model, finalTool: string, request: seq<Message>, result: Result, exhausted: bool) {
    match result
    case Error(e) => e == CompletionFailed && model(request).Failed?
    case Outcome(_, finalArgs) =>
      && !model(request).Failed?
      && finalArgs == FirstArgs(CallsTo(model, request), finalTool)
      && (finalArgs.None? ==> CallsTo(model, request) == [] || exhausted)
  }

  /** `run_tool_loop`. Beside the result it returns what an observer sees: every request, every tool
      execution, and how often `on_step` fired. A failed completion contributes no calls. */
  method RunToolLoop(
      model: Model, tools: Tools, parse: Parse, prompt: string, finalTool: string, maxRounds: nat)
    returns (result: Result, requests: seq<seq<Message>>, done: seq<Executed>, steps: nat)
    ensures |requests| <= maxRounds && steps == |requests| + |done|
    ensures Genuine(tools, done) && Observed(model, prompt, finalTool, requests, done)
    ensures requests == [] ==> maxRounds == 0 && result.Outcome? && result.finalArgs.None?
    ensures requests != [] ==>
      EndsAt(model, finalTool, requests[|requests| - 1], result, |requests| == maxRounds)
    ensures result.Outcome? ==> result.toolCalls == TraceOf(done, parse)
  {
    var turn := Turn([], UserText(prompt), [], []);
    requests, steps := [], 0;
    LoopStarts(model, tools, parse, prompt, finalTool);
    for round := 0 to maxRounds
      invariant |requests| == round && steps == |requests| + |turn.done|
      invariant Underway(model, tools, parse, prompt, finalTool, requests, turn)
    {
      steps := steps + 1;
      ghost var before, last := requests, turn;
      requests := requests + [turn.Request()];
      var ran, ended := |turn.done|, None;
      ended, turn := Round(model, tools, parse, finalTool, turn);
      steps := steps + (|turn.done| - ran);
      RoundAdvances(model, prompt, finalTool, before, last.Request(), last.done, turn.done, turn.Request());
      if ended.Some? {
        return ended.value, requests, turn.done, steps;
      }
    }
    result, done := Outcome(turn.toolCalls, None), turn.done;
    Exhausted(model, tools, parse, prompt, finalTool, requests, turn);
  }

  lemma {:induction false} Exhausted(model: Model, tools: Tools, parse: Parse, prompt: string, finalTool: string,
      requests: seq<seq<Message>>, turn: Turn)
    requires Underway(model, tools, parse, prompt, finalTool, requests, turn)
    ensures requests != [] ==>
      EndsAt(model, finalTool, requests[|requests| - 1], Outcome(turn.toolCalls, None), true)
  {}

  /** What the requests made have to do with the executions: the requests are good, the calls of their
      responses were executed, each once and in order, and the answers they carry are those outputs. */
  predicate Observed(model: Model, prompt: string, finalTool: string, requests: seq<seq<Message>>, done: seq<Executed>)
    requires forall e | e in done :: e.call.Call?
  {
    && GoodRequests(model, prompt, finalTool, requests)
    && CallsDone(done) == AllCalls(model, requests)
    && (requests != [] ==> AnswersIn(requests[|requests| - 1]) <= AnswersOf(done))
  }

  predicate Underway(model: Model, tools: Tools, parse: Parse, prompt: string, finalTool: string,
      requests: seq<seq<Message>>, turn: Turn)
  {
    && Ready(turn, tools, parse)
    && Observed(model, prompt, finalTool, requests, turn.done)
    && MayFollow(model, prompt, finalTool, requests, turn.Request())
  }

  lemma {:induction false} LoopStarts(model: Model, tools: Tools, parse: Parse, prompt: string, finalTool: string)
    ensures Underway(model, tools, parse, prompt, finalTool, [], Turn([], UserText(prompt), [], []))
  {
    var turn := Turn([], UserText(prompt), [], []);
    assert turn.Request() == [UserText(prompt)];
    FirstPrompt(prompt);
    assert AnswersOf([]) == [];
    assert Ready(turn, tools, parse);
    assert Observed(model, prompt, finalTool, [], []);
  }

  lemma {:induction false} FirstPrompt(prompt: string)
    ensures Alternating([UserText(prompt)]) && AnswersIn([UserText(prompt)]) == []
  {
    assert [UserText(prompt)][..0] == [];
  }

  /** After a round the request it sent is observed as well, and a request that continues it may follow. */
  lemma {:induction false} RoundAdvances(model: Model, prompt: string, finalTool: string,
      requests: seq<seq<Message>>, request: seq<Message>, ran: seq<Executed>, done: seq<Executed>, next: seq<Message>)
    requires (forall e | e in ran :: e.call.Call?) && (forall e | e in done :: e.call.Call?)
    requires Observed(model, prompt, finalTool, requests, ran) && MayFollow(model, prompt, finalTool, requests, request)
    requires Alternating(request) && AnswersIn(request) == AnswersOf(ran) <= AnswersOf(done)
    requires CallsDone(done) == CallsDone(ran) + CallsTo(model, request)
    ensures Observed(model, prompt, finalTool, requests + [request], done)
    ensures Continues(model, finalTool, request, next) ==>
      MayFollow(model, prompt, finalTool, requests + [request], next)
  {
    assert (requests + [request])[..|requests|] == requests;
  }

  /** The variables of the loop: the conversation, the next prompt, the trace, and the executions. */
  datatype Turn = Turn(history: seq<Message>, prompt: Message, toolCalls: seq<Traced>, done: seq<Executed>) {
    function Request(): seq<Message> { history + [prompt] }
  }

  predicate Recorded(turn: Turn, tools: Tools, parse: Parse) {
    Genuine(tools, turn.done) && turn.toolCalls == TraceOf(turn.done, parse)
  }

  predicate Ready(turn: Turn, tools: Tools, parse: Parse) {
    Recorded(turn, tools, parse) && Alternating(turn.Request()) && AnswersIn(turn.Request()) == AnswersOf(turn.done)
  }

  /** One round: a completion, its tool calls, and the next prompt unless the run is over. */
  method Round(model: Model, tools: Tools, parse: Parse, finalTool: string, turn: Turn)
    returns (ended: Option<Result>, next: Turn)
    requires Ready(turn, tools, parse)
    ensures Recorded(next, tools, parse) && |next.done| >= |turn.done| && AnswersOf(turn.done) <= AnswersOf(next.done)
    ensures CallsDone(next.done) == CallsDone(turn.done) + CallsTo(model, turn.Request())
    ensures match ended
            case None => Ready(next, tools, parse) && Continues(model, finalTool, turn.Request(), next.Request())
            case Some(result) =>
              && EndsAt(model, finalTool, turn.Request(), result, false)
              && (result.Outcome? ==> result.toolCalls == next.toolCalls)
  {
    next := turn;
    var response := model(turn.history + [turn.prompt]);
    if response.Failed? {
      return Some(Error(CompletionFailed)), next;
    }
    var contents := [response.first] + response.rest;
    var requested := CallsOf(contents);
    if requested == [] {
      return Some(Outcome(next.toolCalls, None)), next;
    }
    next := next.(history := next.history + [next.prompt]);
    if contents == [] {
      return Some(Error(EmptyResponse)), next;
    }
    next := next.(history := next.history + [Assistant(contents)]);
    var results, finalArgs, toolCalls, done :=
      ExecuteCalls(tools, parse, requested, finalTool, turn.toolCalls, turn.done);
    next := next.(toolCalls := toolCalls, done := done);
    if finalArgs.Some? {
      return Some(Outcome(toolCalls, finalArgs)), next;
    }
    if results == [] {
      return Some(Error(EmptyResults)), next;
    }
    next := next.(prompt := UserResults(results));
    assert next.Request() == Extended(turn.Request(), contents, results);
    ResponseAnswered(model, finalTool, turn.Request(), contents, results);
    ended := None;
  }

  /** The next request: the response and its answers behind this one. */
  function Extended(request: seq<Message>, contents: seq<Content>, results: seq<Answer>): seq<Message> {
    request + [Assistant(contents), UserResults(results)]
  }

  /** A response whose calls are answered in order continues the conversation. */
  lemma {:induction false} ResponseAnswered(
      model: Model, finalTool: string, request: seq<Message>, contents: seq<Content>, results: seq<Answer>)
    requires Alternating(request) && contents == ContentsOf(model(request))
    requires CallsOf(contents) != [] && FirstArgs(CallsOf(contents), finalTool) == None
    requires InOrder(CallsOf(contents), results)
    ensures var next := Extended(request, contents, results);
            && Alternating(next)
            && Continues(model, finalTool, request, next)
            && AnswersIn(next) == AnswersIn(request) + results
  {
    var mid, next := request + [Assistant(contents)], Extended(request, contents, results);
    assert next[..|request|] == request && next[..|next| - 2] == request;
    assert next[..|next| - 1] == mid && mid[..|mid| - 1] == request;
  }

  /** Every answer carries the id of its call and the tool's own text, an error marked as such. */
  lemma AnswersCarryToolText(tools: Tools, done: seq<Executed>, i: nat)
    requires Genuine(tools, done) && i < |done|
    ensures var call := done[i].call;
            AnswersOf(done)[i] == Answer(call.id,
              match tools(i, call.name, call.args)
              case Output(text) => text
              case ToolError(text) => "tool error: " + text)
  {}

  /** The calls of a response are its tool calls, all of them and in order. */
  lemma {:induction false} CallsOfConcat(a: seq<Content>, b: seq<Content>)
    ensures CallsOf(a + b) == CallsOf(a) + CallsOf(b)
  {
    if a == [] {
      assert a + b == b;
    } else {
      assert (a + b)[1..] == a[1..] + b;
      CallsOfConcat(a[1..], b);
    }
  }

  lemma CallsOfOne(c: Content)
    ensures CallsOf([c]) == if c.Call? then [c] else []
  {}

  /** Unfolded: every request of a run alternates, and each is the previous one continued. */
  lemma {:induction false} EveryRequestIsGood(
      model: Model, prompt: string, finalTool: string, requests: seq<seq<Message>>, k: nat)
    requires GoodRequests(model, prompt, finalTool, requests) && k < |requests|
    ensures Alternating(requests[k]) && |requests[k]| == 2 * k + 1
    ensures MayFollow(model, prompt, finalTool, requests[..k], requests[k])
  {
    var front := requests[..|requests| - 1];
    if k < |front| {
      EveryRequestIsGood(model, prompt, finalTool, front, k);
      assert front[..k] == requests[..k];
    } else {
      assert front == requests[..k];
      if k > 0 { EveryRequestIsGood(model, prompt, finalTool, front, k - 1); }
    }
  }

  /** The inner loop: executes the calls of one response and collects their answers. */
  method ExecuteCalls(
      tools: Tools, parse: Parse, requested: seq<Content>, finalTool: string, before: seq<Traced>, ran: seq<Executed>)
    returns (results: seq<Answer>, finalArgs: Option<string>, toolCalls: seq<Traced>, done: seq<Executed>)
    requires forall c | c in requested :: c.Call?
    requires Genuine(tools, ran) && before == TraceOf(ran, parse)
    ensures Genuine(tools, done) && toolCalls == TraceOf(done, parse)
    ensures CallsDone(done) == CallsDone(ran) + requested && |done| == |ran| + |requested|
    ensures InOrder(requested, results) && AnswersOf(done) == AnswersOf(ran) + results
    ensures finalArgs == FirstArgs(requested, finalTool)
  {
    results, finalArgs, toolCalls, done := [], None, before, ran;
    for k := 0 to |requested|
      invariant Genuine(tools, done) && toolCalls == TraceOf(done, parse)
      invariant CallsDone(done) == CallsDone(ran) + requested[..k] && |done| == |ran| + k
      invariant InOrder(requested[..k], results) && AnswersOf(done) == AnswersOf(ran) + results
      invariant finalArgs == FirstArgs(requested[..k], finalTool)
    {
      var call := requested[k];
      CallsAppend(requested[..k], call, finalTool);
      assert requested[..k + 1] == requested[..k] + [call];
      if call.name == finalTool && finalArgs.None? {
        finalArgs := Some(call.args);
      }
      var output;
      output, toolCalls, done := ExecuteCall(tools, parse, call, toolCalls, done);
      results := results + [Answer(call.id, Rendered(output))];
    }
    assert requested[..|requested|] == requested;
  }

  lemma {:induction false} CallsAppend(calls: seq<Content>, call: Content, name: string)
    requires (forall c | c in calls :: c.Call?) && call.Call?
    ensures FirstArgs(calls + [call], name)
         == if FirstArgs(calls, name).Some? then FirstArgs(calls, name)
            else if call.name == name then Some(call.args) else None
  {
    assert (calls + [call])[..|calls|] == calls;
  }

  method ExecuteCall(tools: Tools, parse: Parse, call: Content, before: seq<Traced>, ran: seq<Executed>)
    returns (output: ToolOutput, toolCalls: seq<Traced>, done: seq<Executed>)
    requires call.Call? && Genuine(tools, ran) && before == TraceOf(ran, parse)
    ensures Genuine(tools, done) && toolCalls == TraceOf(done, parse) && |done| == |ran| + 1
    ensures CallsDone(done) == CallsDone(ran) + [call]
    ensures AnswersOf(done) == AnswersOf(ran) + [Answer(call.id, Rendered(output))]
  {
    output := tools(|ran|, call.name, call.args);
    toolCalls := before;
    if output.Output? {
      var value := parse(output.text);
      if value.Some? {
        toolCalls := toolCalls + [Traced(call.name, value.value)];
      }
    }
    done := ran + [Executed(call, output)];
    OneMore(ran, Executed(call, output), parse);
  }

  lemma {:induction false} OneMore(ran: seq<Executed>, e: Executed, parse: Parse)
    requires e.call.Call? && forall x | x in ran :: x.call.Call?
    ensures CallsDone(ran + [e]) == CallsDone(ran) + [e.call]
    ensures AnswersOf(ran + [e]) == AnswersOf(ran) + [Answer(e.call.id, Rendered(e.output))]
    ensures TraceOf(ran + [e], parse) == TraceOf(ran, parse)
      + (if e.output.Output? && parse(e.output.text).Some?
         then [Traced(e.call.name, parse(e.output.text).value)] else [])
  {
    assert (ran + [e])[..|ran|] == ran;
  }

  /** `tool_result`: a search from the back. */
  function ToolResult(toolCalls: seq<Traced>, name: string): Option<string> {
    if toolCalls == [] then None
    else
      var last := toolCalls[|toolCalls| - 1];
      if last.name == name then Some(last.value) else ToolResult(toolCalls[..|toolCalls| - 1], name)
  }

  predicate IsLatest(toolCalls: seq<Traced>, name: string, i: nat) {
    && i < |toolCalls| && toolCalls[i].name == name
    && forall j | i < j < |toolCalls| :: toolCalls[j].name != name
  }

  /** It yields the most recent value of the named tool, and nothing exactly if the tool has none. */
  lemma {:induction false} ToolResultIsLatest(toolCalls: seq<Traced>, name: string)
    ensures match ToolResult(toolCalls, name)
            case Some(v) => exists i: nat :: IsLatest(toolCalls, name, i) && toolCalls[i].value == v
            case None => forall t | t in toolCalls :: t.name != name
  {
    if toolCalls != [] {
      var front, n := toolCalls[..|toolCalls| - 1], |toolCalls| - 1;
      if toolCalls[n].name == name {
        assert IsLatest(toolCalls, name, n);
      } else {
        ToolResultIsLatest(front, name);
        if ToolResult(front, name).Some? {
          var i: nat :| IsLatest(front, name, i) && front[i].value == ToolResult(front, name).value;
          assert IsLatest(toolCalls, name, i);
        }
      }
    }
  }
}

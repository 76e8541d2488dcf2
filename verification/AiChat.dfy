// The AI chat handler: a bounded tool-calling loop over a streaming provider, with a server-sent event trace
// and a growing conversation. The provider and the tools are arbitrary functions of what they are given.

module AiChat {
  import opened Wrappers
  import opened ToolCalls

  const MAX_ROUNDS := 10
  const ROUND_LIMIT := "工具调用轮次超出限制"

  datatype StreamEvent = StreamEvent(content: string, toolCalls: seq<ToolCall>, finishReason: string, done: bool,
                                     error: Option<string>)

  datatype StreamOutcome = Refused(error: string) | Stream(events: seq<StreamEvent>)

  datatype ChatMessage = ChatMessage(role: string, content: string, toolCalls: seq<ToolCall>, toolCallId: string)

  /** What a tool yields; the error text comes JSON-escaped. */
  datatype ToolOutcome = Answer(text: string) | ToolError(escaped: string)

  datatype Sse =
    | Content(text: string)
    | ToolCalled(id: string, name: string, arguments: string)
    | ToolResult(id: string, name: string, result: string)
    | Error(message: string)
    | Done

  /** Both may depend on the round and on everything sent so far. */
  type Provider = (nat, seq<ChatMessage>) -> StreamOutcome
  type Tools = (nat, nat, ToolCall) -> ToolOutcome

  // ---------------------------------------------------------------- one streamed answer

  datatype Answered = Answered(content: string, calls: map<int, ToolCall>, finishReason: string)

  datatype Consumed = Consumed(answer: Answered, sent: seq<Sse>, error: Option<string>)

  function Absorb(a: Answered, e: StreamEvent): Answered {
    Answered(a.content + e.content, MergeAll(a.calls, e.toolCalls), if e.finishReason != "" then e.finishReason else a.finishReason)
  }

  function ContentSse(e: StreamEvent): seq<Sse> {
    if e.content != "" then [Content(e.content)] else []
  }

  function Consume(a: Answered, events: seq<StreamEvent>): Consumed
    decreases |events|
  {
    if events == [] then Consumed(a, [], None)
    else
      var e := events[0];
      if e.error.Some? then Consumed(a, [], e.error)
      else if e.done then Consumed(Absorb(a, e), ContentSse(e), None)
      else
        var rest := Consume(Absorb(a, e), events[1..]);
        rest.(sent := ContentSse(e) + rest.sent)
  }

  // ---------------------------------------------------------------- the tool round

  function ResultText(o: ToolOutcome): string {
    match o
    case Answer(text) => text
    case ToolError(escaped) => "{\"error\":\"" + escaped + "\"}"
  }

  function ToolSse(call: ToolCall, result: string): seq<Sse> {
    [ToolCalled(call.id, call.name, call.arguments), ToolResult(call.id, call.name, result)]
  }

  function ToolMessage(call: ToolCall, result: string): ChatMessage {
    ChatMessage("tool", result, [], call.id)
  }

  datatype ToolRound = ToolRound(sse: seq<Sse>, messages: seq<ChatMessage>)

  /** Executing the calls from position i on. */
  function RunTools(tools: Tools, round: nat, calls: seq<ToolCall>, i: nat): ToolRound
    requires i <= |calls|
    decreases |calls| - i
  {
    if i == |calls| then ToolRound([], [])
    else
      var result := ResultText(tools(round, i, calls[i]));
      var rest := RunTools(tools, round, calls, i + 1);
      ToolRound(ToolSse(calls[i], result) + rest.sse, [ToolMessage(calls[i], result)] + rest.messages)
  }

  // ---------------------------------------------------------------- the whole chat

  /** One pass through the loop: the chat is over, or it goes on with a longer history. */
  datatype RoundEnd = Over(sse: seq<Sse>) | Again(sse: seq<Sse>, messages: seq<ChatMessage>)

  /** The history after a tool round: the assistant message with its calls, then the results. */
  function NextHistory(messages: seq<ChatMessage>, content: string, calls: seq<ToolCall>, results: seq<ChatMessage>): seq<ChatMessage> {
    messages + ([ChatMessage("assistant", content, calls, "")] + results)
  }

  function PlayRound(provider: Provider, tools: Tools, messages: seq<ChatMessage>, round: nat): RoundEnd {
    match provider(round, messages)
    case Refused(error) => Over([Error(error), Done])
    case Stream(events) =>
      var c := Consume(Answered("", map[], ""), events);
      if c.error.Some? then Over(c.sent + [Error(c.error.value), Done])
      else if c.answer.finishReason == "tool_calls" && |c.answer.calls| > 0 then
        var calls := EmitFrom(c.answer.calls, 0);
        var ran := RunTools(tools, round, calls, 0);
        Again(c.sent + ran.sse, NextHistory(messages, c.answer.content, calls, ran.messages))
      else Over(c.sent + [Done])
  }

  datatype Transcript = Transcript(sse: seq<Sse>, messages: seq<ChatMessage>, providerCalls: nat)

  function Rounds(provider: Provider, tools: Tools, messages: seq<ChatMessage>, round: nat): Transcript
    requires round <= MAX_ROUNDS
    decreases MAX_ROUNDS - round
  {
    if round == MAX_ROUNDS then Transcript([Error(ROUND_LIMIT), Done], messages, 0)
    else match PlayRound(provider, tools, messages, round)
      case Over(sse) => Transcript(sse, messages, 1)
      case Again(sse, next) =>
        var rest := Rounds(provider, tools, next, round + 1);
        Transcript(sse + rest.sse, rest.messages, 1 + rest.providerCalls)
  }

  /** The recursion of Rounds, one field at a time. */
  lemma RoundsUnfold(provider: Provider, tools: Tools, messages: seq<ChatMessage>, round: nat, end: RoundEnd)
    requires round < MAX_ROUNDS && end == PlayRound(provider, tools, messages, round)
    ensures var t := Rounds(provider, tools, messages, round);
            && (end.Over? ==> t == Transcript(end.sse, messages, 1))
            && (end.Again? ==>
                  var rest := Rounds(provider, tools, end.messages, round + 1);
                  t.sse == end.sse + rest.sse && t.messages == rest.messages && t.providerCalls == 1 + rest.providerCalls)
  {
  }

  /** The handler after its request checks; `accepted` is false when the request has no messages (HTTP 400). */
  method Chat(systemPrompt: string, request: seq<ChatMessage>, provider: Provider, tools: Tools)
    returns (accepted: bool, sse: seq<Sse>, messages: seq<ChatMessage>, providerCalls: nat)
    ensures accepted <==> request != []
    ensures accepted ==>
      Transcript(sse, messages, providerCalls)
      == Rounds(provider, tools, [ChatMessage("system", systemPrompt, [], "")] + request, 0)
    ensures !accepted ==> sse == [] && messages == [] && providerCalls == 0
  {
    if |request| == 0 {
      return false, [], [], 0;
    }
    messages := [ChatMessage("system", systemPrompt, [], "")];
    messages := messages + request;
    accepted := true;
    sse, messages, providerCalls := RunRounds(provider, tools, messages);
  }

  /** The loop over rounds. */
  method RunRounds(provider: Provider, tools: Tools, history: seq<ChatMessage>)
    returns (sse: seq<Sse>, messages: seq<ChatMessage>, providerCalls: nat)
    ensures Transcript(sse, messages, providerCalls) == Rounds(provider, tools, history, 0)
  {
    sse, messages, providerCalls := [], history, 0;
    for round := 0 to MAX_ROUNDS
      invariant Completes(provider, tools, history, Transcript(sse, messages, providerCalls), round)
    {
      ghost var t := Transcript(sse, messages, providerCalls);
      var end := RunRound(provider, tools, messages, round);
      CompletesNext(provider, tools, history, t, round, end);
      providerCalls := providerCalls + 1;
      sse := sse + end.sse;
      if end.Over? {
        return;
      }
      messages := end.messages;
    }
    sse := sse + [Error(ROUND_LIMIT), Done];
  }

  /** What the rounds from `round` on produce, put behind what is there already, is the whole transcript. */
  predicate Completes(provider: Provider, tools: Tools, history: seq<ChatMessage>, t: Transcript, round: nat) {
    && round <= MAX_ROUNDS
    && var rest := Rounds(provider, tools, t.messages, round);
       Rounds(provider, tools, history, 0) == Transcript(t.sse + rest.sse, rest.messages, t.providerCalls + rest.providerCalls)
  }

  lemma CompletesNext(provider: Provider, tools: Tools, history: seq<ChatMessage>, t: Transcript, round: nat, end: RoundEnd)
    requires round < MAX_ROUNDS && Completes(provider, tools, history, t, round)
    requires end == PlayRound(provider, tools, t.messages, round)
    ensures end.Over? ==> Rounds(provider, tools, history, 0) == Transcript(t.sse + end.sse, t.messages, t.providerCalls + 1)
    ensures end.Again? ==>
      Completes(provider, tools, history, Transcript(t.sse + end.sse, end.messages, t.providerCalls + 1), round + 1)
  {
    RoundsUnfold(provider, tools, t.messages, round, end);
    if end.Again? {
      var rest := Rounds(provider, tools, end.messages, round + 1).sse;
      assert t.sse + (end.sse + rest) == (t.sse + end.sse) + rest;
    }
  }

  /** The body of the loop over rounds. */
  method RunRound(provider: Provider, tools: Tools, history: seq<ChatMessage>, round: nat) returns (end: RoundEnd)
    ensures end == PlayRound(provider, tools, history, round)
  {
    var outcome := provider(round, history);
    if outcome.Refused? {
      return Over([Error(outcome.error), Done]);
    }
    var answer, error, sse := ReadStream(outcome.events);
    if error.Some? {
      return Over(sse + [Error(error.value), Done]);
    }
    if answer.finishReason == "tool_calls" && |answer.calls| > 0 {
      var toolCalls := Emit(answer.calls);
      var messages := history + [ChatMessage("assistant", answer.content, toolCalls, "")];
      var toolSse, results := ExecuteCalls(tools, round, toolCalls);
      messages := messages + results;
      assert messages == NextHistory(history, answer.content, toolCalls, results);
      return Again(sse + toolSse, messages);
    }
    return Over(sse + [Done]);
  }

  /** Consuming the events from position i on, put behind what has been sent, is the whole reading. */
  predicate Leads(goal: Consumed, a: Answered, sent: seq<Sse>, events: seq<StreamEvent>, i: nat) {
    && i <= |events|
    && var rest := Consume(a, events[i..]);
       goal == Consumed(rest.answer, sent + rest.sent, rest.error)
  }

  lemma LeadsOn(goal: Consumed, a: Answered, sent: seq<Sse>, events: seq<StreamEvent>, i: nat)
    requires i < |events| && Leads(goal, a, sent, events, i)
    ensures var e := events[i];
            && (e.error.Some? ==> goal == Consumed(a, sent, e.error))
            && (e.error.None? && e.done ==> goal == Consumed(Absorb(a, e), sent + ContentSse(e), None))
            && (e.error.None? && !e.done ==> Leads(goal, Absorb(a, e), sent + ContentSse(e), events, i + 1))
  {
    var e := events[i];
    assert events[i..][0] == e && events[i..][1..] == events[i + 1..];
    assert sent + [] == sent;
    if e.error.None? && !e.done {
      var rest := Consume(Absorb(a, e), events[i + 1..]);
      assert sent + (ContentSse(e) + rest.sent) == sent + ContentSse(e) + rest.sent;
    }
  }

  /** The body of the loop over the channel, for an event without an error. */
  method AbsorbEvent(a: Answered, evt: StreamEvent) returns (r: Answered, sent: seq<Sse>)
    ensures r == Absorb(a, evt) && sent == ContentSse(evt)
  {
    var contentBuilder, toolCallsMap, finishReason := a.content, a.calls, a.finishReason;
    sent := [];
    assert contentBuilder + "" == contentBuilder;
    if evt.content != "" {
      contentBuilder := contentBuilder + evt.content;
      sent := [Content(evt.content)];
    }
    toolCallsMap := MergeDeltas(toolCallsMap, evt.toolCalls);
    if evt.finishReason != "" {
      finishReason := evt.finishReason;
    }
    r := Answered(contentBuilder, toolCallsMap, finishReason);
  }

  /** The loop over the provider's channel. */
  method ReadStream(events: seq<StreamEvent>) returns (answer: Answered, error: Option<string>, sent: seq<Sse>)
    ensures Consumed(answer, sent, error) == Consume(Answered("", map[], ""), events)
  {
    answer, error, sent := Answered("", map[], ""), None, [];
    ghost var goal := Consume(answer, events);
    assert events[0..] == events && [] + goal.sent == goal.sent;
    for i := 0 to |events|
      invariant error == None && Leads(goal, answer, sent, events, i)
    {
      var evt := events[i];
      LeadsOn(goal, answer, sent, events, i);
      if evt.error.Some? {
        error := evt.error;
        return;
      }
      var next, sse := AbsorbEvent(answer, evt);
      answer, sent := next, sent + sse;
      if evt.done {
        return;
      }
    }
    assert sent + [] == sent;
  }

  /** The inner loop over one event's deltas. */
  method MergeDeltas(calls: map<int, ToolCall>, deltas: seq<ToolCall>) returns (r: map<int, ToolCall>)
    ensures r == MergeAll(calls, deltas)
  {
    r := calls;
    for i := 0 to |deltas|
      invariant MergeAll(r, deltas[i..]) == MergeAll(calls, deltas)
    {
      var tc := deltas[i];
      ghost var before := r;
      assert deltas[i..][1..] == deltas[i + 1..];
      if tc.index !in r {
        r := r[tc.index := tc];
      } else {
        var existing := r[tc.index];
        if tc.id != "" {
          existing := existing.(id := tc.id);
        }
        if tc.name != "" {
          existing := existing.(name := existing.name + tc.name);
        }
        existing := existing.(arguments := existing.arguments + tc.arguments);
        r := r[tc.index := existing];
        assert tc.name == "" ==> before[tc.index].name + tc.name == before[tc.index].name;
      }
      assert r == Merge(before, tc);
    }
  }

  /** What the calls from position i on yield, put behind what is there already, is the whole round. */
  predicate Executes(goal: ToolRound, tools: Tools, round: nat, calls: seq<ToolCall>, i: nat, sse: seq<Sse>, messages: seq<ChatMessage>) {
    && i <= |calls|
    && var rest := RunTools(tools, round, calls, i);
       goal == ToolRound(sse + rest.sse, messages + rest.messages)
  }

  lemma ExecutesOn(goal: ToolRound, tools: Tools, round: nat, calls: seq<ToolCall>, i: nat, sse: seq<Sse>, messages: seq<ChatMessage>)
    requires i < |calls| && Executes(goal, tools, round, calls, i, sse, messages)
    ensures var result := ResultText(tools(round, i, calls[i]));
            Executes(goal, tools, round, calls, i + 1, sse + ToolSse(calls[i], result), messages + [ToolMessage(calls[i], result)])
  {
    var result, rest := ResultText(tools(round, i, calls[i])), RunTools(tools, round, calls, i + 1);
    assert sse + (ToolSse(calls[i], result) + rest.sse) == sse + ToolSse(calls[i], result) + rest.sse;
    assert messages + ([ToolMessage(calls[i], result)] + rest.messages) == messages + [ToolMessage(calls[i], result)] + rest.messages;
  }

  method ExecuteCalls(tools: Tools, round: nat, calls: seq<ToolCall>) returns (sse: seq<Sse>, messages: seq<ChatMessage>)
    ensures ToolRound(sse, messages) == RunTools(tools, round, calls, 0)
  {
    sse, messages := [], [];
    ghost var goal := RunTools(tools, round, calls, 0);
    assert [] + goal.sse == goal.sse && [] + goal.messages == goal.messages;
    for i := 0 to |calls|
      invariant Executes(goal, tools, round, calls, i, sse, messages)
    {
      ExecutesOn(goal, tools, round, calls, i, sse, messages);
      var tc := calls[i];
      var called := [ToolCalled(tc.id, tc.name, tc.arguments)];
      var outcome := tools(round, i, tc);
      var result := ResultText(outcome);
      assert called + [ToolResult(tc.id, tc.name, result)] == ToolSse(tc, result);
      sse := sse + (called + [ToolResult(tc.id, tc.name, result)]);
      messages := messages + [ToolMessage(tc, result)];
    }
    assert sse + [] == sse && messages + [] == messages;
  }

  // ---------------------------------------------------------------- the trace

  predicate Paired(sse: seq<Sse>, i: nat)
    requires i < |sse|
  {
    && (sse[i].ToolCalled? ==>
          i + 1 < |sse| && sse[i + 1].ToolResult? && sse[i + 1].id == sse[i].id && sse[i + 1].name == sse[i].name)
    && (sse[i].ToolResult? ==> i > 0 && sse[i - 1].ToolCalled?)
  }

  /** A trace as clients rely on it: exactly one done, at the end; at most one error, right before it; every tool
      call directly followed by its result, and no result without its call. */
  predicate WellFormedTrace(sse: seq<Sse>) {
    var n := |sse|;
    && n > 0
    && (forall i: nat | i < n :: sse[i].Done? <==> i == n - 1)
    && (forall i: nat | i < n :: sse[i].Error? ==> i == n - 2)
    && (forall i: nat | i < n :: Paired(sse, i))
  }

  predicate Interior(sse: seq<Sse>) {
    forall i: nat | i < |sse| :: !sse[i].Done? && !sse[i].Error? && Paired(sse, i)
  }

  lemma TraceOf(a: seq<Sse>, b: seq<Sse>)
    requires Interior(a) && WellFormedTrace(b)
    ensures WellFormedTrace(a + b)
  {
    var s := a + b;
    forall i: nat | i < |s| ensures Paired(s, i) {
      if i < |a| {
        assert Paired(a, i);
      } else {
        assert Paired(b, i - |a|);
      }
    }
  }

  lemma InteriorConcat(a: seq<Sse>, b: seq<Sse>)
    requires Interior(a) && Interior(b)
    ensures Interior(a + b)
  {
    var s := a + b;
    forall i: nat | i < |s| ensures !s[i].Done? && !s[i].Error? && Paired(s, i) {
      if i < |a| {
        assert Paired(a, i);
      } else {
        assert Paired(b, i - |a|);
      }
    }
  }

  lemma {:induction false} ContentIsInterior(a: Answered, events: seq<StreamEvent>)
    ensures Interior(Consume(a, events).sent)
    decreases |events|
  {
    if events != [] && events[0].error.None? && !events[0].done {
      ContentIsInterior(Absorb(a, events[0]), events[1..]);
      InteriorConcat(ContentSse(events[0]), Consume(Absorb(a, events[0]), events[1..]).sent);
    }
  }

  lemma {:induction false} ToolsAreInterior(tools: Tools, round: nat, calls: seq<ToolCall>, i: nat)
    requires i <= |calls|
    ensures Interior(RunTools(tools, round, calls, i).sse)
    decreases |calls| - i
  {
    if i < |calls| {
      ToolsAreInterior(tools, round, calls, i + 1);
      InteriorConcat(ToolSse(calls[i], ResultText(tools(round, i, calls[i]))), RunTools(tools, round, calls, i + 1).sse);
    }
  }

  /** What a pass may leave behind. */
  predicate RoundOk(end: RoundEnd) {
    if end.Over? then WellFormedTrace(end.sse) else Interior(end.sse)
  }

  lemma RoundTrace(provider: Provider, tools: Tools, messages: seq<ChatMessage>, round: nat, end: RoundEnd)
    requires end == PlayRound(provider, tools, messages, round)
    ensures RoundOk(end)
  {
    if provider(round, messages).Stream? {
      var events := provider(round, messages).events;
      var c := Consume(Answered("", map[], ""), events);
      ContentIsInterior(Answered("", map[], ""), events);
      if c.error.Some? {
        TraceOf(c.sent, [Error(c.error.value), Done]);
      } else if end.Over? {
        TraceOf(c.sent, [Done]);
      } else {
        var calls := EmitFrom(c.answer.calls, 0);
        ToolsAreInterior(tools, round, calls, 0);
        InteriorConcat(c.sent, RunTools(tools, round, calls, 0).sse);
      }
    }
  }

  /** The trace of a chat, from that of its first pass and that of the rest. */
  lemma TraceExtends(end: RoundEnd, later: Transcript, t: Transcript)
    requires RoundOk(end)
    requires end.Over? ==> t.sse == end.sse
    requires end.Again? ==> WellFormedTrace(later.sse) && t.sse == end.sse + later.sse
    ensures WellFormedTrace(t.sse)
  {
    if end.Again? {
      TraceOf(end.sse, later.sse);
    }
  }

  /** For every provider and every tool behaviour: the trace is well formed, and the provider is called at most
      ten times. */
  lemma {:induction false} TraceIsWellFormed(provider: Provider, tools: Tools, messages: seq<ChatMessage>, round: nat)
    requires round <= 10
    ensures WellFormedTrace(Rounds(provider, tools, messages, round).sse)
    ensures Rounds(provider, tools, messages, round).providerCalls <= 10 - round
    decreases MAX_ROUNDS - round
  {
    var t := Rounds(provider, tools, messages, round);
    if round == MAX_ROUNDS {
      assert t.sse == [Error(ROUND_LIMIT), Done];
    } else {
      var end := PlayRound(provider, tools, messages, round);
      RoundTrace(provider, tools, messages, round, end);
      RoundsUnfold(provider, tools, messages, round, end);
      if end.Over? {
        TraceExtends(end, t, t);
      } else {
        TraceIsWellFormed(provider, tools, end.messages, round + 1);
        TraceExtends(end, Rounds(provider, tools, end.messages, round + 1), t);
      }
    }
  }

  // ---------------------------------------------------------------- the conversation

  /** Tool messages that answer exactly these calls, in order. */
  predicate Answers(messages: seq<ChatMessage>, calls: seq<ToolCall>) {
    && |messages| == |calls|
    && forall i | 0 <= i < |calls| ::
         messages[i].role == "tool" && messages[i].toolCallId == calls[i].id && messages[i].toolCalls == []
  }

  /** A history of complete tool rounds: an assistant message, then one tool message per call in order, again and
      again. */
  predicate ToolRounds(h: seq<ChatMessage>)
    decreases |h|
  {
    h == []
    || (var calls := h[0].toolCalls;
        && h[0].role == "assistant"
        && |calls| < |h|
        && Answers(h[1..1 + |calls|], calls)
        && ToolRounds(h[1 + |calls|..]))
  }

  function RoundCount(h: seq<ChatMessage>): nat
    requires ToolRounds(h)
    decreases |h|
  {
    if h == [] then 0 else 1 + RoundCount(h[1 + |h[0].toolCalls|..])
  }

  /** The calls that the trace reports, and those that the conversation holds. */
  function TracedCalls(sse: seq<Sse>): seq<(string, string, string)> {
    if sse == [] then []
    else (if sse[0].ToolCalled? then [(sse[0].id, sse[0].name, sse[0].arguments)] else []) + TracedCalls(sse[1..])
  }

  function CallData(calls: seq<ToolCall>): seq<(string, string, string)> {
    seq(|calls|, i requires 0 <= i < |calls| => (calls[i].id, calls[i].name, calls[i].arguments))
  }

  function HistoryCalls(h: seq<ChatMessage>): seq<(string, string, string)> {
    if h == [] then [] else CallData(h[0].toolCalls) + HistoryCalls(h[1..])
  }

  lemma {:induction false} TracedConcat(a: seq<Sse>, b: seq<Sse>)
    ensures TracedCalls(a + b) == TracedCalls(a) + TracedCalls(b)
  {
    if a == [] {
      assert a + b == b;
    } else {
      assert (a + b)[0] == a[0] && (a + b)[1..] == a[1..] + b;
      TracedConcat(a[1..], b);
      var own := if a[0].ToolCalled? then [(a[0].id, a[0].name, a[0].arguments)] else [];
      assert own + (TracedCalls(a[1..]) + TracedCalls(b)) == own + TracedCalls(a[1..]) + TracedCalls(b);
    }
  }

  lemma {:induction false} HistoryConcat(a: seq<ChatMessage>, b: seq<ChatMessage>)
    ensures HistoryCalls(a + b) == HistoryCalls(a) + HistoryCalls(b)
  {
    if a == [] {
      assert a + b == b;
    } else {
      assert (a + b)[1..] == a[1..] + b;
      HistoryConcat(a[1..], b);
    }
  }

  lemma {:induction false} ContentTracesNoCall(a: Answered, events: seq<StreamEvent>)
    ensures TracedCalls(Consume(a, events).sent) == []
    decreases |events|
  {
    if events != [] && events[0].error.None? && !events[0].done {
      ContentTracesNoCall(Absorb(a, events[0]), events[1..]);
      TracedConcat(ContentSse(events[0]), Consume(Absorb(a, events[0]), events[1..]).sent);
    }
  }

  lemma TracedOfTail(error: string)
    ensures TracedCalls([Error(error), Done]) == [] && TracedCalls([Done]) == []
  {
    assert [Error(error), Done][1..] == [Done] && [Done][1..] == [];
  }

  lemma TracedOfTool(call: ToolCall, result: string)
    ensures TracedCalls(ToolSse(call, result)) == [(call.id, call.name, call.arguments)]
  {
    var r := ToolResult(call.id, call.name, result);
    assert ToolSse(call, result)[1..] == [r] && [r][1..] == [];
    assert TracedCalls([r]) == [];
  }

  lemma {:induction false} ToolsAnswerCalls(tools: Tools, round: nat, calls: seq<ToolCall>, i: nat)
    requires i <= |calls|
    ensures Answers(RunTools(tools, round, calls, i).messages, calls[i..])
    ensures HistoryCalls(RunTools(tools, round, calls, i).messages) == []
    decreases |calls| - i
  {
    if i < |calls| {
      ToolsAnswerCalls(tools, round, calls, i + 1);
      var rest := RunTools(tools, round, calls, i + 1).messages;
      var m := ToolMessage(calls[i], ResultText(tools(round, i, calls[i])));
      assert ([m] + rest)[1..] == rest && CallData(m.toolCalls) == [];
    }
  }

  lemma {:induction false} ToolsAreTraced(tools: Tools, round: nat, calls: seq<ToolCall>, i: nat)
    requires i <= |calls|
    ensures TracedCalls(RunTools(tools, round, calls, i).sse) == CallData(calls[i..])
    decreases |calls| - i
  {
    if i < |calls| {
      ToolsAreTraced(tools, round, calls, i + 1);
      var result := ResultText(tools(round, i, calls[i]));
      TracedConcat(ToolSse(calls[i], result), RunTools(tools, round, calls, i + 1).sse);
      TracedOfTool(calls[i], result);
      assert calls[i..] == [calls[i]] + calls[i + 1..];
    }
  }

  /** What one pass adds: nothing when the chat is over; else an assistant message and the answers to its calls,
      which are the calls in the trace. */
  lemma RoundHistory(provider: Provider, tools: Tools, messages: seq<ChatMessage>, round: nat)
    returns (head: ChatMessage, results: seq<ChatMessage>)
    ensures var end := PlayRound(provider, tools, messages, round);
            && (end.Over? ==> TracedCalls(end.sse) == [])
            && (end.Again? ==>
                  && end.messages == messages + ([head] + results)
                  && head.role == "assistant" && Answers(results, head.toolCalls)
                  && HistoryCalls(results) == []
                  && TracedCalls(end.sse) == CallData(head.toolCalls))
  {
    head, results := ChatMessage("assistant", "", [], ""), [];
    match provider(round, messages)
    case Refused(error) => TracedOfTail(error);
    case Stream(events) =>
      var c := Consume(Answered("", map[], ""), events);
      ContentTracesNoCall(Answered("", map[], ""), events);
      if c.error.Some? {
        TracedOfTail(c.error.value);
        TracedConcat(c.sent, [Error(c.error.value), Done]);
      } else {
        var calls := EmitFrom(c.answer.calls, 0);
        head, results := ChatMessage("assistant", c.answer.content, calls, ""), RunTools(tools, round, calls, 0).messages;
        assert calls[0..] == calls;
        ToolsAnswerCalls(tools, round, calls, 0);
        ToolsAreTraced(tools, round, calls, 0);
        TracedConcat(c.sent, RunTools(tools, round, calls, 0).sse);
        TracedOfTail("");
        TracedConcat(c.sent, [Done]);
      }
  }

  predicate EndsInLimit(sse: seq<Sse>) {
    |sse| >= 2 && sse[|sse| - 2] == Error(ROUND_LIMIT)
  }

  /** The provider reports errors of its own only, none with the text of the round limit. */
  ghost predicate OwnErrors(provider: Provider) {
    forall round, messages :: OwnError(provider(round, messages))
  }

  predicate OwnError(o: StreamOutcome) {
    match o
    case Refused(error) => error != ROUND_LIMIT
    case Stream(events) => forall e | e in events :: e.error != Some(ROUND_LIMIT)
  }

  lemma {:induction false} ConsumedError(a: Answered, events: seq<StreamEvent>)
    requires OwnError(Stream(events))
    ensures Consume(a, events).error != Some(ROUND_LIMIT)
    decreases |events|
  {
    if events != [] {
      assert events[0] in events && forall e | e in events[1..] :: e in events;
      ConsumedError(Absorb(a, events[0]), events[1..]);
    }
  }

  /** A chat that ends by itself does not end in the limit error. */
  lemma OverIsNotLimit(provider: Provider, tools: Tools, messages: seq<ChatMessage>, round: nat, end: RoundEnd)
    requires OwnErrors(provider) && end == PlayRound(provider, tools, messages, round) && end.Over?
    ensures !EndsInLimit(end.sse)
  {
    assert OwnError(provider(round, messages));
    match provider(round, messages)
    case Refused(error) =>
    case Stream(events) =>
      var c := Consume(Answered("", map[], ""), events);
      ConsumedError(Answered("", map[], ""), events);
      ContentIsInterior(Answered("", map[], ""), events);
      if c.error.None? {
        assert end.sse == c.sent + [Done];
        assert |c.sent| > 0 ==> !c.sent[|c.sent| - 1].Error?;
      }
  }

  lemma LimitStaysLast(sse: seq<Sse>, later: seq<Sse>)
    requires Interior(sse) && later != []
    ensures EndsInLimit(sse + later) <==> EndsInLimit(later)
  {
    if |later| == 1 && |sse| > 0 {
      assert !sse[|sse| - 1].Error?;
    }
  }

  /** How a chat with `left` rounds to go extends its conversation: by complete tool rounds, whose calls are exactly
      those in the trace, in order; with one provider call more than rounds, except when all rounds were tool
      rounds: then the trace ends in the limit error. With a provider that has errors of its own only, that is the one
      way into the limit error. */
  ghost predicate Extends(t: Transcript, messages: seq<ChatMessage>, added: seq<ChatMessage>, left: nat, own: bool) {
    && t.sse != []
    && t.messages == messages + added
    && ToolRounds(added)
    && HistoryCalls(added) == TracedCalls(t.sse)
    && (if RoundCount(added) == left then t.providerCalls == left && EndsInLimit(t.sse)
        else t.providerCalls == RoundCount(added) + 1 <= left)
    && (own && EndsInLimit(t.sse) ==> RoundCount(added) == left)
  }

  /** For every provider and tool behaviour the conversation is what it started with followed by complete tool
      rounds that match the trace. */
  lemma {:induction false} ConversationIsWellFormed(provider: Provider, tools: Tools, messages: seq<ChatMessage>, round: nat)
    returns (added: seq<ChatMessage>)
    requires round <= 10
    ensures Extends(Rounds(provider, tools, messages, round), messages, added, 10 - round, OwnErrors(provider))
    decreases MAX_ROUNDS - round
  {
    added := [];
    if round == MAX_ROUNDS {
      TracedOfTail(ROUND_LIMIT);
      assert messages + [] == messages;
    } else {
      var end := PlayRound(provider, tools, messages, round);
      var head, results := RoundHistory(provider, tools, messages, round);
      RoundsUnfold(provider, tools, messages, round, end);
      RoundTrace(provider, tools, messages, round, end);
      if end.Again? {
        var rest := ConversationIsWellFormed(provider, tools, end.messages, round + 1);
        var t := Rounds(provider, tools, end.messages, round + 1);
        added := ExtendsByRound(end, t, messages, head, results, rest, MAX_ROUNDS - round - 1, OwnErrors(provider));
      } else {
        assert messages + [] == messages;
        if OwnErrors(provider) {
          OverIsNotLimit(provider, tools, messages, round, end);
        }
      }
    }
  }

  /** The proviso is needed: a provider that refuses with the text of the limit looks, in the trace, like ten rounds. */
  lemma RefusalCanImitateTheLimit(tools: Tools, messages: seq<ChatMessage>)
    ensures exists provider: Provider ::
      EndsInLimit(Rounds(provider, tools, messages, 0).sse) && Rounds(provider, tools, messages, 0).providerCalls == 1
  {
    var provider: Provider := (round: nat, history: seq<ChatMessage>) => Refused(ROUND_LIMIT);
    assert PlayRound(provider, tools, messages, 0) == Over([Error(ROUND_LIMIT), Done]);
    RoundsUnfold(provider, tools, messages, 0, Over([Error(ROUND_LIMIT), Done]));
    assert EndsInLimit(Rounds(provider, tools, messages, 0).sse);
  }

  lemma ExtendsByRound(end: RoundEnd, t: Transcript, messages: seq<ChatMessage>, head: ChatMessage,
                       results: seq<ChatMessage>, rest: seq<ChatMessage>, left: nat, own: bool) returns (added: seq<ChatMessage>)
    requires end.Again? && Interior(end.sse) && end.messages == messages + ([head] + results)
    requires head.role == "assistant" && Answers(results, head.toolCalls) && HistoryCalls(results) == []
    requires TracedCalls(end.sse) == CallData(head.toolCalls) && Extends(t, end.messages, rest, left, own)
    ensures Extends(Transcript(end.sse + t.sse, t.messages, 1 + t.providerCalls), messages, added, left + 1, own)
  {
    added := [head] + results + rest;
    RoundPrepended(head, results, rest);
    CallsPrepended(end.sse, t.sse, head, results, rest);
    Regroup(messages, [head], results, rest);
    LimitStaysLast(end.sse, t.sse);
  }

  lemma CallsPrepended(sse: seq<Sse>, later: seq<Sse>, head: ChatMessage, results: seq<ChatMessage>, rest: seq<ChatMessage>)
    requires HistoryCalls(results) == [] && TracedCalls(sse) == CallData(head.toolCalls) && HistoryCalls(rest) == TracedCalls(later)
    ensures HistoryCalls([head] + results + rest) == TracedCalls(sse + later)
  {
    HistoryPrepended(head, results, rest);
    TracedConcat(sse, later);
  }

  lemma Regroup<T>(a: seq<T>, b: seq<T>, c: seq<T>, d: seq<T>)
    ensures a + (b + c) + d == a + (b + c + d)
  {
  }

  lemma HistoryPrepended(head: ChatMessage, results: seq<ChatMessage>, rest: seq<ChatMessage>)
    requires HistoryCalls(results) == []
    ensures HistoryCalls([head] + results + rest) == CallData(head.toolCalls) + HistoryCalls(rest)
  {
    HistoryConcat([head] + results, rest);
    HistoryConcat([head], results);
    assert HistoryCalls([head]) == CallData(head.toolCalls) + HistoryCalls([]);
  }

  lemma RoundPrepended(head: ChatMessage, results: seq<ChatMessage>, rest: seq<ChatMessage>)
    requires head.role == "assistant" && Answers(results, head.toolCalls) && ToolRounds(rest)
    ensures ToolRounds([head] + results + rest) && RoundCount([head] + results + rest) == 1 + RoundCount(rest)
  {
    var h := [head] + results + rest;
    var n := |head.toolCalls|;
    assert h[1..1 + n] == results && h[1 + n..] == rest && h[0] == head;
  }

  // ---------------------------------------------------------------- what a round is decided by

  /** Reading a stream stops at the first event that is an error or a done, or at its end. */
  ghost predicate StopsAt(events: seq<StreamEvent>, n: nat) {
    && n <= |events|
    && (forall i | 0 <= i < n :: events[i].error.None? && !events[i].done)
    && (n < |events| ==> events[n].error.Some? || events[n].done)
  }

  predicate FailsAt(events: seq<StreamEvent>, n: nat) {
    n < |events| && events[n].error.Some?
  }

  /** What is read up to there: a done counts, an error does not. */
  function Seen(events: seq<StreamEvent>, n: nat): seq<StreamEvent>
    requires n <= |events|
  {
    if n < |events| && events[n].error.None? then events[..n + 1] else events[..n]
  }

  /** The last finish reason given, "" if none was. */
  function LastReason(events: seq<StreamEvent>): string {
    if events == [] then ""
    else if events[|events| - 1].finishReason != "" then events[|events| - 1].finishReason
    else LastReason(events[..|events| - 1])
  }

  function Contents(events: seq<StreamEvent>): string {
    if events == [] then "" else events[0].content + Contents(events[1..])
  }

  function Fragments(events: seq<StreamEvent>): seq<ToolCall> {
    if events == [] then [] else events[0].toolCalls + Fragments(events[1..])
  }

  /** The content events for these stream events: one for each that has content. */
  function Chunks(events: seq<StreamEvent>): seq<Sse> {
    if events == [] then []
    else (if events[0].content == "" then [] else [Content(events[0].content)]) + Chunks(events[1..])
  }

  /** The text that a client puts together from a trace. */
  function TextOf(sse: seq<Sse>): string {
    if sse == [] then "" else (if sse[0].Content? then sse[0].text else "") + TextOf(sse[1..])
  }

  lemma {:induction false} ChunksCarryContents(events: seq<StreamEvent>)
    ensures TextOf(Chunks(events)) == Contents(events)
  {
    if events != [] {
      ChunksCarryContents(events[1..]);
      var rest := Chunks(events[1..]);
      if events[0].content == "" {
        assert [] + rest == rest;
      } else {
        assert ([Content(events[0].content)] + rest)[1..] == rest;
      }
    }
  }

  lemma {:induction false} LastReasonOfRest(first: StreamEvent, rest: seq<StreamEvent>)
    ensures LastReason([first] + rest) == if LastReason(rest) != "" then LastReason(rest) else first.finishReason
  {
    var all := [first] + rest;
    if rest == [] {
      assert all[..0] == [];
    } else {
      assert all[|all| - 1] == rest[|rest| - 1] && all[..|all| - 1] == [first] + rest[..|rest| - 1];
      LastReasonOfRest(first, rest[..|rest| - 1]);
    }
  }

  /** `c` is what reading `seen` makes of `a`. */
  ghost predicate Reads(a: Answered, seen: seq<StreamEvent>, c: Consumed) {
    && c.answer.content == a.content + Contents(seen)
    && c.answer.calls == MergeAll(a.calls, Fragments(seen))
    && c.answer.finishReason == (if LastReason(seen) != "" then LastReason(seen) else a.finishReason)
    && c.sent == Chunks(seen)
  }

  lemma ReadsOneMore(a: Answered, e: StreamEvent, seen: seq<StreamEvent>, c: Consumed)
    requires Reads(Absorb(a, e), seen, c)
    ensures Reads(a, [e] + seen, c.(sent := ContentSse(e) + c.sent))
  {
    assert ([e] + seen)[1..] == seen;
    LastReasonOfRest(e, seen);
    MergeAllConcat(a.calls, e.toolCalls, Fragments(seen));
    assert a.content + e.content + Contents(seen) == a.content + (e.content + Contents(seen));
  }

  lemma {:induction false} ConsumeReads(a: Answered, events: seq<StreamEvent>, n: nat)
    requires StopsAt(events, n)
    ensures Reads(a, Seen(events, n), Consume(a, events))
    ensures Consume(a, events).error == if FailsAt(events, n) then events[n].error else None
    decreases |events|
  {
    if n > 0 {
      var e := events[0];
      StopsLater(events, n);
      ConsumeReads(Absorb(a, e), events[1..], n - 1);
      ReadsOneMore(a, e, Seen(events[1..], n - 1), Consume(Absorb(a, e), events[1..]));
      assert [e] + Seen(events[1..], n - 1) == Seen(events, n);
    } else if events != [] && events[0].error.None? {
      ReadsOneMore(a, events[0], [], Consumed(Absorb(a, events[0]), [], None));
      assert Seen(events, 0) == [events[0]] + [];
      assert ContentSse(events[0]) + [] == ContentSse(events[0]);
    } else {
      assert Seen(events, 0) == [];
    }
  }

  lemma StopsLater(events: seq<StreamEvent>, n: nat)
    requires StopsAt(events, n) && n > 0
    ensures StopsAt(events[1..], n - 1)
    ensures FailsAt(events[1..], n - 1) <==> FailsAt(events, n)
    ensures FailsAt(events, n) ==> events[1..][n - 1] == events[n]
  {
  }

  lemma {:induction false} NoFragments(events: seq<StreamEvent>)
    ensures Fragments(events) != [] <==> exists e :: e in events && e.toolCalls != []
  {
    if events != [] {
      NoFragments(events[1..]);
      if e :| e in events && e.toolCalls != [] {
        assert e == events[0] || e in events[1..];
      }
    }
  }

  lemma SomeCall(fragments: seq<ToolCall>)
    ensures |MergeAll(map[], fragments)| > 0 <==> fragments != []
  {
    if fragments != [] {
      AssemblyIsPerIndex(fragments, fragments[0].index);
      assert fragments[0].index in MergeAll(map[], fragments);
    }
  }

  /** For every stream: the chat goes on if and only if reading it meets no error, the last finish reason given asks for tool
      calls, and some event carries one. Whatever happens, the client is sent the content as it comes; when the chat does
      not go on, then nothing but the error, if there is one, and the done. */
  lemma RoundVerdict(provider: Provider, tools: Tools, messages: seq<ChatMessage>, round: nat, events: seq<StreamEvent>, n: nat)
    requires provider(round, messages) == Stream(events) && StopsAt(events, n)
    ensures var end, seen := PlayRound(provider, tools, messages, round), Seen(events, n);
            && (end.Again? <==> !FailsAt(events, n) && LastReason(seen) == "tool_calls" && exists e :: e in seen && e.toolCalls != [])
            && (end.Over? ==> end.sse == Chunks(seen) + if FailsAt(events, n) then [Error(events[n].error.value), Done] else [Done])
    ensures TextOf(Chunks(Seen(events, n))) == Contents(Seen(events, n))
  {
    var seen := Seen(events, n);
    ConsumeReads(Answered("", map[], ""), events, n);
    ChunksCarryContents(seen);
    NoFragments(seen);
    SomeCall(Fragments(seen));
  }

  lemma {:induction false} ToolsCount(tools: Tools, round: nat, calls: seq<ToolCall>, i: nat)
    requires i <= |calls|
    ensures |RunTools(tools, round, calls, i).messages| == |calls| - i && |RunTools(tools, round, calls, i).sse| == 2 * (|calls| - i)
    decreases |calls| - i
  {
    if i < |calls| {
      ToolsCount(tools, round, calls, i + 1);
    }
  }

  /** The two events of a call stand together. */
  predicate PairAt(sse: seq<Sse>, at: nat, call: ToolCall, told: string) {
    && at + 1 < |sse| && sse[at] == ToolCalled(call.id, call.name, call.arguments)
    && sse[at + 1] == ToolResult(call.id, call.name, told)
  }

  /** Call number k of those from i on is answered by what it yielded. */
  predicate TellsOf(ran: ToolRound, place: nat, call: ToolCall, told: string) {
    place < |ran.messages| && ran.messages[place] == ToolMessage(call, told) && PairAt(ran.sse, 2 * place, call, told)
  }

  lemma TellsFirst(call: ToolCall, told: string, rest: ToolRound)
    ensures TellsOf(ToolRound(ToolSse(call, told) + rest.sse, [ToolMessage(call, told)] + rest.messages), 0, call, told)
  {
  }

  lemma TellsLater(first: ToolCall, toldFirst: string, rest: ToolRound, place: nat, call: ToolCall, told: string)
    requires TellsOf(rest, place, call, told)
    ensures TellsOf(ToolRound(ToolSse(first, toldFirst) + rest.sse, [ToolMessage(first, toldFirst)] + rest.messages), place + 1, call, told)
  {
    PairMoves(ToolSse(first, toldFirst), rest.sse, 2 * place, call, told);
  }

  lemma {:induction false} ToolsTell(tools: Tools, round: nat, calls: seq<ToolCall>, i: nat, k: nat)
    requires i <= k < |calls|
    ensures TellsOf(RunTools(tools, round, calls, i), k - i, calls[k], ResultText(tools(round, k, calls[k])))
    decreases k - i
  {
    var told, rest := ResultText(tools(round, i, calls[i])), RunTools(tools, round, calls, i + 1);
    assert RunTools(tools, round, calls, i) == ToolRound(ToolSse(calls[i], told) + rest.sse, [ToolMessage(calls[i], told)] + rest.messages);
    if i == k {
      TellsFirst(calls[i], told, rest);
    } else {
      ToolsTell(tools, round, calls, i + 1, k);
      TellsLater(calls[i], told, rest, k - (i + 1), calls[k], ResultText(tools(round, k, calls[k])));
      assert k - (i + 1) + 1 == k - i;
    }
  }

  lemma PairMoves(before: seq<Sse>, sse: seq<Sse>, at: nat, call: ToolCall, told: string)
    requires PairAt(sse, at, call, told)
    ensures PairAt(before + sse, |before| + at, call, told)
  {
  }

  lemma AgainIs(provider: Provider, tools: Tools, messages: seq<ChatMessage>, round: nat, events: seq<StreamEvent>, n: nat)
    requires provider(round, messages) == Stream(events) && StopsAt(events, n)
    requires PlayRound(provider, tools, messages, round).Again?
    ensures var seen := Seen(events, n);
            var calls := EmitFrom(MergeAll(map[], Fragments(seen)), 0);
            var ran := RunTools(tools, round, calls, 0);
            PlayRound(provider, tools, messages, round)
            == Again(Chunks(seen) + ran.sse, NextHistory(messages, Contents(seen), calls, ran.messages))
  {
    ConsumeReads(Answered("", map[], ""), events, n);
    assert "" + Contents(Seen(events, n)) == Contents(Seen(events, n));
  }

  /** The k-th call of a tool round is answered by `told`, to the model and, behind what was sent before, to the client. */
  predicate TellsCall(end: RoundEnd, m: nat, sent: nat, k: nat, call: ToolCall, told: string) {
    && end.Again? && m + 1 + k < |end.messages| && end.messages[m + 1 + k] == ChatMessage("tool", told, [], call.id)
    && PairAt(end.sse, sent + 2 * k, call, told)
  }

  lemma ToldBehind(end: RoundEnd, sent: seq<Sse>, messages: seq<ChatMessage>, content: string, calls: seq<ToolCall>, ran: ToolRound,
                   k: nat, told: string)
    requires end == Again(sent + ran.sse, NextHistory(messages, content, calls, ran.messages))
    requires k < |calls| && TellsOf(ran, k, calls[k], told)
    ensures TellsCall(end, |messages|, |sent|, k, calls[k], told)
  {
    PairMoves(sent, ran.sse, 2 * k, calls[k], told);
  }

  /** What a tool round adds to the conversation: the assistant's message with the whole content and the calls put together
      from the fragments; then a message for each of them, and nothing else. */
  lemma RoundAddsMessages(provider: Provider, tools: Tools, messages: seq<ChatMessage>, round: nat, events: seq<StreamEvent>, n: nat)
    requires provider(round, messages) == Stream(events) && StopsAt(events, n)
    requires PlayRound(provider, tools, messages, round).Again?
    ensures var end, seen, m := PlayRound(provider, tools, messages, round), Seen(events, n), |messages|;
            var calls := EmitFrom(MergeAll(map[], Fragments(seen)), 0);
            && |end.messages| == m + 1 + |calls| && end.messages[..m] == messages
            && end.messages[m] == ChatMessage("assistant", Contents(seen), calls, "")
            && |end.sse| == |Chunks(seen)| + 2 * |calls| && Chunks(seen) <= end.sse
  {
    AgainIs(provider, tools, messages, round, events, n);
    var calls := EmitFrom(MergeAll(map[], Fragments(Seen(events, n))), 0);
    ToolsCount(tools, round, calls, 0);
  }

  /** What the tool yields for a call is what both the model and the client are told; an error comes as a JSON object. */
  lemma CallIsAnswered(provider: Provider, tools: Tools, messages: seq<ChatMessage>, round: nat, events: seq<StreamEvent>, n: nat,
                       calls: seq<ToolCall>, k: nat)
    requires provider(round, messages) == Stream(events) && StopsAt(events, n)
    requires PlayRound(provider, tools, messages, round).Again?
    requires calls == EmitFrom(MergeAll(map[], Fragments(Seen(events, n))), 0) && k < |calls|
    ensures var o := tools(round, k, calls[k]);
            TellsCall(PlayRound(provider, tools, messages, round), |messages|, |Chunks(Seen(events, n))|, k, calls[k],
                      if o.Answer? then o.text else "{\"error\":\"" + o.escaped + "\"}")
  {
    AgainIs(provider, tools, messages, round, events, n);
    CallIsTold(tools, messages, round, Seen(events, n), calls, k);
  }

  lemma CallIsTold(tools: Tools, messages: seq<ChatMessage>, round: nat, seen: seq<StreamEvent>, calls: seq<ToolCall>, k: nat)
    requires k < |calls|
    ensures var ran, o := RunTools(tools, round, calls, 0), tools(round, k, calls[k]);
            TellsCall(Again(Chunks(seen) + ran.sse, NextHistory(messages, Contents(seen), calls, ran.messages)), |messages|, |Chunks(seen)|, k,
                      calls[k], if o.Answer? then o.text else "{\"error\":\"" + o.escaped + "\"}")
  {
    var ran := RunTools(tools, round, calls, 0);
    ToolsTell(tools, round, calls, 0, k);
    ToldBehind(Again(Chunks(seen) + ran.sse, NextHistory(messages, Contents(seen), calls, ran.messages)), Chunks(seen), messages,
               Contents(seen), calls, ran, k, ResultText(tools(round, k, calls[k])));
  }

  /** A provider that refuses ends the chat with its own error. */
  lemma RefusalEndsTheChat(provider: Provider, tools: Tools, messages: seq<ChatMessage>, round: nat)
    requires round < 10 && provider(round, messages).Refused?
    ensures Rounds(provider, tools, messages, round) == Transcript([Error(provider(round, messages).error), Done], messages, 1)
  {
  }
}

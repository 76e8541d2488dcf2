// The streaming side of the AI provider: a goroutine turns the lines of a server-sent event body into events on a
// channel, which the chat handler consumes. Parsing JSON is a parameter.

module ProviderStream {
  import opened Wrappers
  import opened GoStrings
  import opened ToolCalls
  import opened AiChat

  const DATA := "data: "
  const DONE_PAYLOAD := "[DONE]"
  const DONE_EVENT := StreamEvent("", [], "", true, None)

  datatype Choice = Choice(content: string, toolCalls: seq<ToolCall>, finishReason: Option<string>)

  /** The choices of a chunk; None where the payload does not unmarshal. */
  type Parser = string -> Option<seq<Choice>>

  predicate IsDone(line: string) {
    line == DATA + DONE_PAYLOAD
  }

  function ErrorEvent(message: string): StreamEvent {
    StreamEvent("", [], "", false, Some(message))
  }

  function ChoiceEvent(c: Choice): StreamEvent {
    StreamEvent(c.content, c.toolCalls, if c.finishReason.Some? then c.finishReason.value else "", false, None)
  }

  /** What a line other than the done line sends: nothing, unless it is data that parses and has a choice. */
  function LineEvents(line: string, parse: Parser): seq<StreamEvent> {
    if !HasPrefix(line, DATA) then []
    else match parse(TrimPrefix(line, DATA))
      case None => []
      case Some(choices) => if choices == [] then [] else [ChoiceEvent(choices[0])]
  }

  /** Everything sent when the consumer does not cancel; `failure` is the scanner's error. */
  function Sent(lines: seq<string>, parse: Parser, failure: Option<string>): seq<StreamEvent> {
    if lines == [] then (if failure.Some? then [ErrorEvent(failure.value)] else [])
    else if IsDone(lines[0]) then [DONE_EVENT]
    else LineEvents(lines[0], parse) + Sent(lines[1..], parse, failure)
  }

  /** The loop body up to the select: the done line, or at most one event to send. */
  method ReadLine(line: string, parse: Parser) returns (done: bool, event: Option<StreamEvent>)
    ensures done <==> IsDone(line)
    ensures !done ==> LineEvents(line, parse) == if event.Some? then [event.value] else []
    ensures event.Some? ==> !event.value.done
  {
    if line == "" || !HasPrefix(line, DATA) {
      return false, None;
    }
    var payload := TrimPrefix(line, DATA);
    assert line == DATA + payload;
    if payload == DONE_PAYLOAD {
      return true, None;
    }
    assert (DATA + DONE_PAYLOAD)[|DATA|..] == DONE_PAYLOAD;
    assert (DATA + payload)[|DATA|..] == payload;
    var chunk := parse(payload);
    if chunk == None || chunk.value == [] {
      return false, None;
    }
    return false, Some(ChoiceEvent(chunk.value[0]));
  }

  /** How far a sender gets that has `all` to send: all of it, or up to the first event that loses its select. */
  ghost predicate Delivered(events: seq<StreamEvent>, all: seq<StreamEvent>, cancels: nat -> bool) {
    && events <= all
    && (forall n | 0 <= n < |events| :: events[n] == DONE_EVENT || !cancels(n))
    && (events != all ==> cancels(|events|) && all[|events|] != DONE_EVENT)
  }

  /** `now` and `next` are what is sent from a line on and from the line after it. */
  ghost predicate Steps(line: string, parse: Parser, now: seq<StreamEvent>, next: seq<StreamEvent>) {
    if IsDone(line) then now == [DONE_EVENT] else now == LineEvents(line, parse) + next
  }

  lemma SentStep(lines: seq<string>, i: nat, parse: Parser, failure: Option<string>)
    requires i < |lines|
    ensures Steps(lines[i], parse, Sent(lines[i..], parse, failure), Sent(lines[i + 1..], parse, failure))
  {
    assert lines[i..][0] == lines[i] && lines[i..][1..] == lines[i + 1..];
  }

  /** The loop body up to the select, against what is left to send. */
  method NextEvent(line: string, parse: Parser, ghost now: seq<StreamEvent>, ghost next: seq<StreamEvent>)
    returns (done: bool, event: Option<StreamEvent>)
    requires Steps(line, parse, now, next)
    ensures done ==> now == [DONE_EVENT]
    ensures !done ==> now == (if event.Some? then [event.value] + next else next)
    ensures event.Some? ==> !event.value.done
  {
    done, event := ReadLine(line, parse);
    assert [] + next == next;
  }

  /** The goroutine. `cancels(n)` says whether the select for event n takes the cancelled context; the done event
      is sent without a select. */
  method ChatStream(lines: seq<string>, parse: Parser, failure: Option<string>, cancels: nat -> bool) returns (events: seq<StreamEvent>)
    ensures Delivered(events, Sent(lines, parse, failure), cancels)
  {
    ghost var sent: nat -> seq<StreamEvent> := (i: nat) => if i <= |lines| then Sent(lines[i..], parse, failure) else [];
    forall i | 0 <= i < |lines| ensures Steps(lines[i], parse, sent(i), sent(i + 1)) {
      SentStep(lines, i, parse, failure);
    }
    assert lines[0..] == lines;
    events := Relay(lines, parse, failure, cancels, sent);
  }

  /** Midway: what has arrived and what is left make up everything. */
  ghost predicate Relayed(all: seq<StreamEvent>, events: seq<StreamEvent>, left: seq<StreamEvent>, cancels: nat -> bool) {
    && all == events + left
    && (forall n | 0 <= n < |events| :: events[n] == DONE_EVENT || !cancels(n))
  }

  lemma RelayedOneMore(all: seq<StreamEvent>, events: seq<StreamEvent>, event: StreamEvent, left: seq<StreamEvent>, cancels: nat -> bool)
    requires Relayed(all, events, [event] + left, cancels) && (event == DONE_EVENT || !cancels(|events|))
    ensures Relayed(all, events + [event], left, cancels)
  {
    assert events + ([event] + left) == events + [event] + left;
  }

  lemma RelayedAll(all: seq<StreamEvent>, events: seq<StreamEvent>, cancels: nat -> bool)
    requires Relayed(all, events, [], cancels)
    ensures Delivered(events, all, cancels)
  {
    assert events + [] == events;
  }

  lemma RelayCancelled(all: seq<StreamEvent>, events: seq<StreamEvent>, event: StreamEvent, left: seq<StreamEvent>, cancels: nat -> bool)
    requires Relayed(all, events, [event] + left, cancels) && cancels(|events|) && event != DONE_EVENT
    ensures Delivered(events, all, cancels)
  {
    assert all[|events|] == event;
  }

  method Relay(lines: seq<string>, parse: Parser, failure: Option<string>, cancels: nat -> bool, ghost sent: nat -> seq<StreamEvent>)
    returns (events: seq<StreamEvent>)
    requires forall i | 0 <= i < |lines| :: Steps(lines[i], parse, sent(i), sent(i + 1))
    requires sent(|lines|) == if failure.Some? then [ErrorEvent(failure.value)] else []
    ensures Delivered(events, sent(0), cancels)
  {
    events := [];
    ghost var all := sent(0);
    assert [] + all == all;
    for i := 0 to |lines|
      invariant Relayed(all, events, sent(i), cancels)
    {
      var done, event := NextEvent(lines[i], parse, sent(i), sent(i + 1));
      if done {
        assert sent(i) == [DONE_EVENT] + [];
        RelayedOneMore(all, events, DONE_EVENT, [], cancels);
        RelayedAll(all, events + [DONE_EVENT], cancels);
        return events + [DONE_EVENT];
      }
      if event.Some? {
        if cancels(|events|) {
          RelayCancelled(all, events, event.value, sent(i + 1), cancels);
          return;
        }
        RelayedOneMore(all, events, event.value, sent(i + 1), cancels);
        events := events + [event.value];
      }
    }
    if failure.Some? {
      assert sent(|lines|) == [ErrorEvent(failure.value)] + [];
      if cancels(|events|) {
        RelayCancelled(all, events, ErrorEvent(failure.value), [], cancels);
        return;
      }
      RelayedOneMore(all, events, ErrorEvent(failure.value), [], cancels);
      events := events + [ErrorEvent(failure.value)];
    }
    RelayedAll(all, events, cancels);
  }

  // ---------------------------------------------------------------- order on the channel

  predicate Terminal(e: StreamEvent) {
    e.done || e.error.Some?
  }

  predicate HasDone(lines: seq<string>) {
    exists line | line in lines :: IsDone(line)
  }

  /** A done or error event comes last, and which of the two it is depends on the first done line and the scanner alone. */
  lemma {:induction false} TerminalComesLast(lines: seq<string>, parse: Parser, failure: Option<string>)
    ensures var sent := Sent(lines, parse, failure);
            && (forall n | 0 <= n < |sent| - 1 :: !Terminal(sent[n]))
            && (HasDone(lines) ==> sent != [] && sent[|sent| - 1] == DONE_EVENT)
            && (!HasDone(lines) && failure.Some? ==> sent != [] && sent[|sent| - 1] == ErrorEvent(failure.value))
            && (!HasDone(lines) && failure == None ==> forall e | e in sent :: !Terminal(e))
  {
    if lines != [] && !IsDone(lines[0]) {
      TerminalComesLast(lines[1..], parse, failure);
      assert HasDone(lines) <==> HasDone(lines[1..]);
    } else if lines != [] {
      assert lines[0] in lines;
    }
  }

  lemma {:induction false} SentSplits(before: seq<string>, after: seq<string>, parse: Parser, failure: Option<string>)
    requires !HasDone(before)
    ensures Sent(before + after, parse, failure) == Sent(before, parse, None) + Sent(after, parse, failure)
  {
    if before == [] {
      assert before + after == after;
    } else {
      assert before[0] in before;
      assert (before + after)[1..] == before[1..] + after;
      forall line | line in before[1..] ensures !IsDone(line) {
        assert line in before;
      }
      SentSplits(before[1..], after, parse, failure);
    }
  }

  /** Blank lines, comments, other fields, broken chunks and chunks without choices may stand anywhere. */
  lemma NoiseIsIrrelevant(before: seq<string>, noise: string, after: seq<string>, parse: Parser, failure: Option<string>)
    requires !IsDone(noise) && LineEvents(noise, parse) == []
    ensures Sent(before + [noise] + after, parse, failure) == Sent(before + after, parse, failure)
  {
    if !HasDone(before) {
      SentSplits(before, [noise] + after, parse, failure);
      SentSplits(before, after, parse, failure);
      assert before + [noise] + after == before + ([noise] + after);
      assert ([noise] + after)[1..] == after;
    } else {
      assert before + [noise] + after == before + ([noise] + after);
      DoneEndsTheStream(before, [noise] + after, parse, failure);
      DoneEndsTheStream(before, after, parse, failure);
    }
  }

  /** Nothing after the done line is sent, and a scanner error after it does not count. */
  lemma {:induction false} DoneEndsTheStream(before: seq<string>, after: seq<string>, parse: Parser, failure: Option<string>)
    requires HasDone(before)
    ensures Sent(before + after, parse, failure) == Sent(before, parse, None)
  {
    if !IsDone(before[0]) {
      assert (before + after)[1..] == before[1..] + after;
      var line :| line in before && IsDone(line);
      assert line in before[1..];
      DoneEndsTheStream(before[1..], after, parse, failure);
    }
  }

  /** What a cancellation can do: it cuts the stream at some event that lost its select, and never takes the done event alone;
      without one everything arrives. */
  lemma CancellationCuts(lines: seq<string>, parse: Parser, failure: Option<string>, cancels: nat -> bool, events: seq<StreamEvent>)
    requires Delivered(events, Sent(lines, parse, failure), cancels)
    ensures events <= Sent(lines, parse, failure)
    ensures (forall n :: !cancels(n)) ==> events == Sent(lines, parse, failure)
    ensures "data: [DONE]" in lines && events != Sent(lines, parse, failure) ==> |events| + 1 < |Sent(lines, parse, failure)|
  {
    TerminalComesLast(lines, parse, failure);
    if "data: [DONE]" in lines {
      DoneLine("data: [DONE]");
    }
  }

  // ---------------------------------------------------------------- seen by the chat handler

  lemma {:induction false} ConsumeUpToTheEnd(a: Answered, data: seq<StreamEvent>, last: seq<StreamEvent>)
    requires forall e | e in data :: !Terminal(e)
    requires last == [DONE_EVENT] || (|last| == 1 && last[0].error.Some?)
    ensures var c, d := Consume(a, data + last), Consume(a, data);
            && d.error == None && c.answer == d.answer && c.sent == d.sent && c.error == last[0].error
    decreases |data|
  {
    if data == [] {
      assert data + last == last;
      assert a.content + "" == a.content;
    } else {
      assert (data + last)[1..] == data[1..] + last;
      assert !Terminal(data[0]) && forall e | e in data[1..] :: e in data;
      ConsumeUpToTheEnd(Absorb(a, data[0]), data[1..], last);
    }
  }

  /** Without cancellation: the handler sees an error exactly when reading fails before a done line; and a stream that
      just ends reads the same as one that ends with the done line. */
  lemma SentReadsAs(lines: seq<string>, parse: Parser, failure: Option<string>, a: Answered)
    ensures Consume(a, Sent(lines, parse, failure)).error == if HasDone(lines) then None else failure
    ensures Consume(a, Sent(lines + [DATA + DONE_PAYLOAD], parse, failure)) == Consume(a, Sent(lines, parse, None))
  {
    var sent := Sent(lines, parse, failure);
    TerminalComesLast(lines, parse, failure);
    TerminalComesLast(lines, parse, None);
    if HasDone(lines) || failure.Some? {
      var data := sent[..|sent| - 1];
      assert sent == data + [sent[|sent| - 1]];
      ConsumeUpToTheEnd(a, data, [sent[|sent| - 1]]);
    } else {
      ConsumeUpToTheEnd(a, sent, [DONE_EVENT]);
    }
    if HasDone(lines) {
      DoneEndsTheStream(lines, [DATA + DONE_PAYLOAD], parse, failure);
    } else {
      SentSplits(lines, [DATA + DONE_PAYLOAD], parse, failure);
      ConsumeUpToTheEnd(a, Sent(lines, parse, None), [DONE_EVENT]);
    }
  }

  lemma {:induction false} NoTerminalNoError(a: Answered, events: seq<StreamEvent>)
    requires forall e | e in events :: !Terminal(e)
    ensures Consume(a, events).error == None
    decreases |events|
  {
    if events != [] {
      assert !Terminal(events[0]) && forall e | e in events[1..] :: e in events;
      NoTerminalNoError(Absorb(a, events[0]), events[1..]);
    }
  }

  /** For every delivery, cancelled or not: the handler sees an error exactly when reading fails before a done line and
      nothing on the channel was lost to the cancellation. */
  lemma HandlerSeesEnd(lines: seq<string>, parse: Parser, failure: Option<string>, cancels: nat -> bool, events: seq<StreamEvent>, a: Answered)
    requires Delivered(events, Sent(lines, parse, failure), cancels)
    ensures Consume(a, events).error == if HasDone(lines) || events != Sent(lines, parse, failure) then None else failure
  {
    var sent := Sent(lines, parse, failure);
    if events == sent {
      SentReadsAs(lines, parse, failure, a);
    } else {
      TerminalComesLast(lines, parse, failure);
      forall e | e in events ensures !Terminal(e) {
        var n :| 0 <= n < |events| && events[n] == e;
        assert sent[n] == e && n < |sent| - 1;
      }
      NoTerminalNoError(a, events);
    }
  }

  /** So a read that fails because the context ran out can look like a complete answer: when the error event loses its
      select, and no tool call was asked for, the chat ends in a plain done. */
  lemma LostErrorLooksComplete(lines: seq<string>, parse: Parser, message: string, cancels: nat -> bool, events: seq<StreamEvent>,
                               provider: Provider, tools: Tools, messages: seq<ChatMessage>, round: nat)
    requires !HasDone(lines) && Delivered(events, Sent(lines, parse, Some(message)), cancels)
    requires provider(round, messages) == Stream(events)
    ensures var c, end := Consume(Answered("", map[], ""), events), PlayRound(provider, tools, messages, round);
            && (events == Sent(lines, parse, Some(message)) <==> end == Over(c.sent + [Error(message), Done]))
            && (events != Sent(lines, parse, Some(message)) && c.answer.finishReason != "tool_calls" ==> end == Over(c.sent + [Done]))
  {
    HandlerSeesEnd(lines, parse, Some(message), cancels, events, Answered("", map[], ""));
    var c := Consume(Answered("", map[], ""), events);
    if c.error == None {
      assert |c.sent + [Done]| != |c.sent + [Error(message), Done]|;
    }
  }

  /** It does happen. */
  lemma TheErrorCanBeLost(parse: Parser, message: string)
    ensures Delivered([], Sent([], parse, Some(message)), n => true) && [] != Sent([], parse, Some(message))
  {
  }

  // ---------------------------------------------------------------- what the channel carries

  /** The first choices of the chunks before the done line; lines that are not data, or do not parse, or have no choice, are
      passed over. */
  function FirstChoices(lines: seq<string>, parse: Parser): seq<Choice> {
    if lines == [] || lines[0] == "data: [DONE]" then []
    else
      (if "data: " <= lines[0] && parse(lines[0][6..]).Some? && parse(lines[0][6..]).value != [] then [parse(lines[0][6..]).value[0]] else [])
      + FirstChoices(lines[1..], parse)
  }

  /** One event per choice, with its content, its tool calls and its finish reason if it has one. */
  function Carried(choices: seq<Choice>): seq<StreamEvent> {
    seq(|choices|, i requires 0 <= i < |choices| =>
      StreamEvent(choices[i].content, choices[i].toolCalls, match choices[i].finishReason case Some(r) => r case None => "", false, None))
  }

  /** What ends the channel: a done for the done line, else the scanner's error, else nothing. */
  function End(lines: seq<string>, failure: Option<string>): seq<StreamEvent> {
    if "data: [DONE]" in lines then [StreamEvent("", [], "", true, None)]
    else match failure
      case Some(message) => [StreamEvent("", [], "", false, Some(message))]
      case None => []
  }

  lemma DoneLine(line: string)
    ensures IsDone(line) <==> line == "data: [DONE]"
  {
    assert DATA + DONE_PAYLOAD == "data: [DONE]";
  }

  lemma LineCarries(line: string, parse: Parser)
    requires line != "data: [DONE]"
    ensures LineEvents(line, parse) == Carried(FirstChoices([line], parse))
  {
    assert [line][1..] == [];
    assert FirstChoices([line][1..], parse) == [];
  }

  lemma CarriedConcat(a: seq<Choice>, b: seq<Choice>)
    ensures Carried(a + b) == Carried(a) + Carried(b)
  {
  }

  /** Without cancellation the channel carries exactly the first choices of the chunks before the done line, in order, and
      then its end. */
  lemma {:induction false} ChannelCarriesChoices(lines: seq<string>, parse: Parser, failure: Option<string>)
    ensures Sent(lines, parse, failure) == Carried(FirstChoices(lines, parse)) + End(lines, failure)
  {
    if lines != [] {
      DoneLine(lines[0]);
      if lines[0] != "data: [DONE]" {
        ChannelCarriesChoices(lines[1..], parse, failure);
        LineCarries(lines[0], parse);
        SplitFirstLine(lines, parse);
        var own, rest := FirstChoices([lines[0]], parse), FirstChoices(lines[1..], parse);
        CarriedConcat(own, rest);
        assert End(lines, failure) == End(lines[1..], failure);
        assert Carried(own) + (Carried(rest) + End(lines, failure)) == Carried(own) + Carried(rest) + End(lines, failure);
      } else {
        assert End(lines, failure) == [DONE_EVENT];
        assert Carried([]) + [DONE_EVENT] == [DONE_EVENT];
      }
    }
  }

  lemma SplitFirstLine(lines: seq<string>, parse: Parser)
    requires lines != [] && lines[0] != "data: [DONE]"
    ensures FirstChoices(lines, parse) == FirstChoices([lines[0]], parse) + FirstChoices(lines[1..], parse)
  {
    assert [lines[0]][1..] == [];
    assert FirstChoices([lines[0]][1..], parse) == [];
  }

  /** From the lines to the round: reading stops behind the choices, and what it has then seen is they. So the chat goes on if
      and only if the lines have a done or their reading did not fail, the last finish reason of a first choice asks for tool
      calls, and some first choice carries one. */
  lemma LinesDecideTheRound(lines: seq<string>, parse: Parser, failure: Option<string>,
                            provider: Provider, tools: Tools, messages: seq<ChatMessage>, round: nat)
    requires provider(round, messages) == Stream(Sent(lines, parse, failure))
    ensures var choices := Carried(FirstChoices(lines, parse));
            && StopsAt(Sent(lines, parse, failure), |choices|)
            && Contents(Seen(Sent(lines, parse, failure), |choices|)) == Contents(choices)
            && (PlayRound(provider, tools, messages, round).Again? <==>
                  ("data: [DONE]" in lines || failure == None) && LastReason(choices) == "tool_calls" && exists e :: e in choices && e.toolCalls != [])
  {
    var events, choices, end := Sent(lines, parse, failure), Carried(FirstChoices(lines, parse)), End(lines, failure);
    ChannelCarriesChoices(lines, parse, failure);
    var seen := Seen(events, |choices|);
    if "data: [DONE]" in lines {
      assert seen == choices + end;
      EmptyEventAdds(choices, end[0]);
    } else {
      assert seen == choices;
    }
    RoundVerdict(provider, tools, messages, round, events, |choices|);
  }

  lemma {:induction false} ContentsConcat(a: seq<StreamEvent>, b: seq<StreamEvent>)
    ensures Contents(a + b) == Contents(a) + Contents(b)
  {
    if a == [] {
      assert a + b == b;
    } else {
      assert (a + b)[1..] == a[1..] + b;
      ContentsConcat(a[1..], b);
    }
  }

  lemma EmptyEventAdds(choices: seq<StreamEvent>, done: StreamEvent)
    requires done.content == "" && done.toolCalls == [] && done.finishReason == ""
    ensures Contents(choices + [done]) == Contents(choices) && LastReason(choices + [done]) == LastReason(choices)
    ensures (exists e :: e in choices + [done] && e.toolCalls != []) <==> (exists e :: e in choices && e.toolCalls != [])
  {
    ContentsConcat(choices, [done]);
    assert [done][1..] == [];
    assert (choices + [done])[..|choices|] == choices;
  }
}

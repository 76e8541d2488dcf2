// What a session tells its client about each command: which ones it asks about, which ones ran, and with what result.

module ArthasTrace {
  import opened Wrappers
  import opened GoStrings
  import opened ArthasPolicy
  import opened ArthasPlan
  import opened ArthasSession
  import opened ArthasRuns
  import opened ArthasReports
  import opened ArthasOrder

  // ---------------------------------------------------------------- reading a trace

  function Filter(events: seq<Event>, kind: Event -> bool): seq<Event> {
    if events == [] then [] else (if kind(events[0]) then [events[0]] else []) + Filter(events[1..], kind)
  }

  lemma {:induction false} FilterConcat(a: seq<Event>, b: seq<Event>, kind: Event -> bool)
    ensures Filter(a + b, kind) == Filter(a, kind) + Filter(b, kind)
  {
    if a == [] {
      assert a + b == b;
    } else {
      assert (a + b)[0] == a[0] && (a + b)[1..] == a[1..] + b;
      FilterConcat(a[1..], b, kind);
      var own := if kind(a[0]) then [a[0]] else [];
      assert own + (Filter(a[1..], kind) + Filter(b, kind)) == own + Filter(a[1..], kind) + Filter(b, kind);
    }
  }

  lemma {:induction false} FilterNothing(events: seq<Event>, kind: Event -> bool)
    requires forall e | e in events :: !kind(e)
    ensures Filter(events, kind) == []
  {
    if events != [] {
      assert events[0] in events && forall e | e in events[1..] :: e in events;
      FilterNothing(events[1..], kind);
    }
  }

  lemma FilterOne(e: Event, kind: Event -> bool)
    ensures Filter([e], kind) == if kind(e) then [e] else []
  {
    assert [e][1..] == [];
  }

  lemma FilterTwo(a: Event, b: Event, kind: Event -> bool)
    ensures Filter([a, b], kind) == (if kind(a) then [a] else []) + (if kind(b) then [b] else [])
  {
    FilterOne(b, kind);
    assert [a, b][1..] == [b];
  }

  predicate IsRequest(e: Event) {
    e.ConfirmationRequired?
  }

  /** What shows that a command ran, or why it did not. */
  predicate IsOfARun(e: Event) {
    e.Executed? || e.CommandResult? || e.Failed?
  }

  /** Every executed command is answered by the very next event, under the same text. */
  predicate AnsweredAtOnce(events: seq<Event>) {
    forall i | 0 <= i < |events| && events[i].Executed? ::
      i + 1 < |events| && (events[i + 1].CommandResult? || events[i + 1].Failed?) && events[i + 1].command == events[i].command
  }

  lemma AnsweredConcat(a: seq<Event>, b: seq<Event>)
    requires AnsweredAtOnce(a) && AnsweredAtOnce(b)
    ensures AnsweredAtOnce(a + b)
  {
    var s := a + b;
    forall i | 0 <= i < |s| && s[i].Executed?
      ensures i + 1 < |s| && (s[i + 1].CommandResult? || s[i + 1].Failed?) && s[i + 1].command == s[i].command
    {
      if i < |a| {
        assert a[i].Executed? && s[i + 1] == a[i + 1];
      } else {
        assert b[i - |a|].Executed? && s[i + 1] == b[i - |a| + 1];
      }
    }
  }

  lemma NothingToAnswer(events: seq<Event>)
    requires forall e | e in events :: !e.Executed?
    ensures AnsweredAtOnce(events)
  {
    forall i | 0 <= i < |events| ensures !events[i].Executed? {
      assert events[i] in events;
    }
  }

  // ---------------------------------------------------------------- what is due

  /** The policy never lets a command run by itself that it wants confirmed. */
  ghost predicate Consistent(classify: string -> Decision) {
    forall command :: classify(command).autoExecutable ==> !classify(command).requiresConfirmation
  }

  lemma ClassifierIsConsistent(p: Policy)
    ensures Consistent(Classifier(p))
  {
    forall command ensures Classifier(p)(command).autoExecutable ==> !Classifier(p)(command).requiresConfirmation {
      DecisionFollowsTokens(p, command);
    }
  }

  /** The answer to an executed command: its own error, or its own result. */
  function Answer(text: string, o: Outcome): Event {
    if o.error.Some? then Failed(text, ExecFailed(o.error.value)) else CommandResult(text, o.result)
  }

  /** What the automatic commands of a plan, taken with their own outcomes, are due in plan order. */
  function RunsDue(classify: string -> Decision, pid: string, commands: seq<PlannedCommand>, outcomes: seq<Outcome>): seq<Event>
    requires |outcomes| == |commands|
    decreases |commands|
  {
    if commands == [] then []
    else RunDue(classify, pid, commands[0].command, outcomes[0]) + RunsDue(classify, pid, commands[1..], outcomes[1..])
  }

  function RunDue(classify: string -> Decision, pid: string, text: string, o: Outcome): seq<Event> {
    if !classify(text).autoExecutable then []
    else if pid == "" then [Failed(text, MissingPid)]
    else [Executed(text), Answer(text, o)]
  }

  /** A request for confirmation for each of these commands, in order. */
  function RequestsFor(commands: seq<PlannedCommand>): seq<Event> {
    seq(|commands|, i requires 0 <= i < |commands| => ConfirmationRequired(commands[i].command))
  }

  predicate AllKept(outcomes: seq<Outcome>) {
    forall i | 0 <= i < |outcomes| :: Kept(outcomes[i])
  }

  /** A stretch of a trace that sends these requests and reports these runs. */
  ghost predicate Tells(events: seq<Event>, requests: seq<Event>, runs: seq<Event>) {
    && Filter(events, IsRequest) == requests && Filter(events, IsOfARun) == runs
    && AnsweredAtOnce(events)
    && (forall e | e in events :: IsRequest(e) || IsOfARun(e))
  }

  lemma TellsConcat(a: seq<Event>, ra: seq<Event>, na: seq<Event>, b: seq<Event>, rb: seq<Event>, nb: seq<Event>)
    requires Tells(a, ra, na) && Tells(b, rb, nb)
    ensures Tells(a + b, ra + rb, na + nb)
  {
    FilterConcat(a, b, IsRequest);
    FilterConcat(a, b, IsOfARun);
    AnsweredConcat(a, b);
  }

  lemma ReplyTells(classify: string -> Decision, pid: string, text: string, o: Outcome)
    requires Consistent(classify) && Kept(o) && classify(text).autoExecutable
    ensures Tells(ExecuteReply(classify, pid, text, o).events, [], RunDue(classify, pid, text, o))
  {
    if pid == "" {
      FilterOne(Failed(text, MissingPid), IsRequest);
      FilterOne(Failed(text, MissingPid), IsOfARun);
    } else {
      FilterTwo(Executed(text), Answer(text, o), IsRequest);
      FilterTwo(Executed(text), Answer(text, o), IsOfARun);
    }
  }

  lemma {:induction false} PlanTells(classify: string -> Decision, pid: string, d: Diagnosis, commands: seq<PlannedCommand>, outcomes: seq<Outcome>)
    requires Consistent(classify) && |outcomes| == |commands| && AllKept(outcomes)
    ensures Tells(PlanTurn(classify, pid, d, commands, outcomes).1,
                  RequestsFor(HeldBack(classify, commands)), RunsDue(classify, pid, commands, outcomes))
    decreases |commands|
  {
    if commands != [] {
      var c := commands[0];
      var (d1, e1) := PlanStep(classify, pid, d, c, outcomes[0]);
      StepTells(classify, pid, d, c, outcomes[0]);
      PlanTells(classify, pid, d1, commands[1..], outcomes[1..]);
      TellsConcat(e1, RequestsFor(HeldBack(classify, [c])), RunDue(classify, pid, c.command, outcomes[0]),
                  PlanTurn(classify, pid, d1, commands[1..], outcomes[1..]).1,
                  RequestsFor(HeldBack(classify, commands[1..])), RunsDue(classify, pid, commands[1..], outcomes[1..]));
      RequestsSplit(classify, commands);
    }
  }

  lemma HeldBackOfOne(classify: string -> Decision, c: PlannedCommand)
    ensures HeldBack(classify, [c]) == if classify(c.command).autoExecutable then [] else [c]
  {
    assert [c][1..] == [];
  }

  lemma RequestsSplit(classify: string -> Decision, commands: seq<PlannedCommand>)
    requires commands != []
    ensures RequestsFor(HeldBack(classify, commands))
         == RequestsFor(HeldBack(classify, [commands[0]])) + RequestsFor(HeldBack(classify, commands[1..]))
  {
    HeldBackOfOne(classify, commands[0]);
    assert HeldBack(classify, commands) == HeldBack(classify, [commands[0]]) + HeldBack(classify, commands[1..]);
    RequestsConcat(HeldBack(classify, [commands[0]]), HeldBack(classify, commands[1..]));
  }

  lemma RequestsConcat(a: seq<PlannedCommand>, b: seq<PlannedCommand>)
    ensures RequestsFor(a + b) == RequestsFor(a) + RequestsFor(b)
  {
  }

  lemma StepTells(classify: string -> Decision, pid: string, d: Diagnosis, c: PlannedCommand, o: Outcome)
    requires Consistent(classify) && Kept(o)
    ensures Tells(PlanStep(classify, pid, d, c, o).1, RequestsFor(HeldBack(classify, [c])), RunDue(classify, pid, c.command, o))
  {
    HeldBackOfOne(classify, c);
    if classify(c.command).autoExecutable {
      ReplyTells(classify, pid, c.command, o);
    } else {
      FilterOne(ConfirmationRequired(c.command), IsRequest);
      FilterOne(ConfirmationRequired(c.command), IsOfARun);
    }
  }

  // ---------------------------------------------------------------- the prompt

  /** Every prompt with a plan: the client first gets the plan; is asked about exactly the commands held back, in plan
      order; and sees each automatic command run in plan order, its own result or its own error right behind it, or why
      none can run. The round is then about that prompt and that plan. */
  lemma PromptTellsEverything(classify: string -> Decision, s: Session, input: Input)
    requires Consistent(classify) && EnvFits(s.d, input.msg, input.env) && IsNewRound(input) && AllKept(input.env.outcomes)
    ensures var events, plan := Events(classify, s, input), input.env.plan.value;
            && |events| > 0 && events[0] == PlanSent(plan) && PlanSent(plan) !in events[1..]
            && Filter(events, IsRequest) == RequestsFor(HeldBack(classify, plan.commands))
            && Filter(events, IsOfARun) == RunsDue(classify, input.msg.pid, plan.commands, input.env.outcomes)
            && AnsweredAtOnce(events)
    ensures After(classify, s, input).d.prompt == input.msg.prompt && After(classify, s, input).d.plan == input.env.plan
  {
    var plan := input.env.plan.value;
    var start := Diagnosis(input.msg.prompt, input.env.plan, input.msg.evidence, map[]);
    var told := PlanTurn(classify, input.msg.pid, start, plan.commands, input.env.outcomes).1;
    PlanTells(classify, input.msg.pid, start, plan.commands, input.env.outcomes);
    PlanTurnEffect(classify, input.msg.pid, start, plan.commands, input.env.outcomes);
    var end := PromptFrame(classify, s, input, told);
    Framed(PlanSent(plan), told, end);
  }

  lemma PromptFrame(classify: string -> Decision, s: Session, input: Input, told: seq<Event>) returns (end: seq<Event>)
    requires EnvFits(s.d, input.msg, input.env) && IsNewRound(input)
    requires told == PlanTurn(classify, input.msg.pid, Diagnosis(input.msg.prompt, input.env.plan, input.msg.evidence, map[]),
                              input.env.plan.value.commands, input.env.outcomes).1
    ensures Events(classify, s, input) == [PlanSent(input.env.plan.value)] + (told + end)
    ensures forall e | e in end :: e.Report? || e.Done?
  {
    var plan, t := input.env.plan.value, After(classify, s, input).d;
    end := SessionReport(t) + if PromptDone(plan, |input.msg.evidence|, |t.evidence|, |t.pending|) then [Done] else [];
  }

  /** The plan in front and the report and done behind are neither requests nor of a run. */
  lemma Framed(first: Event, told: seq<Event>, end: seq<Event>)
    requires first.PlanSent? && AnsweredAtOnce(told) && forall e | e in end :: e.Report? || e.Done?
    requires forall e | e in told :: IsRequest(e) || IsOfARun(e)
    ensures var events := [first] + (told + end);
            && Filter(events, IsRequest) == Filter(told, IsRequest) && Filter(events, IsOfARun) == Filter(told, IsOfARun)
            && AnsweredAtOnce(events) && first !in events[1..]
  {
    FramedFilter(first, told, end, IsRequest);
    FramedFilter(first, told, end, IsOfARun);
    NothingToAnswer(end);
    NothingToAnswer([first]);
    AnsweredConcat(told, end);
    AnsweredConcat([first], told + end);
  }

  lemma FramedFilter(first: Event, told: seq<Event>, end: seq<Event>, kind: Event -> bool)
    requires !kind(first) && forall e | e in end :: !kind(e)
    ensures Filter([first] + (told + end), kind) == Filter(told, kind)
  {
    FilterOne(first, kind);
    FilterConcat([first], told + end, kind);
    FilterConcat(told, end, kind);
    FilterNothing(end, kind);
  }

  /** In terms of the policy: the client is asked about exactly the commands that are not low-risk by their own tokens, or
      about all of them while the switch is off. */
  lemma AskedIsNotLowRisk(p: Policy, commands: seq<PlannedCommand>, c: PlannedCommand)
    ensures c in HeldBack(Classifier(p), commands) <==> c in commands && !(p.autoExecLowRisk && RiskOf(Fields(c.command)) == Low)
  {
    DecisionFollowsTokens(p, c.command);
    HeldBackMembers(Classifier(p), commands, c);
  }

  lemma {:induction false} HeldBackMembers(classify: string -> Decision, commands: seq<PlannedCommand>, c: PlannedCommand)
    ensures c in HeldBack(classify, commands) <==> c in commands && !classify(c.command).autoExecutable
  {
    if commands != [] {
      HeldBackMembers(classify, commands[1..], c);
    }
  }

  // ---------------------------------------------------------------- the other messages

  /** An ad-hoc command: without a PID it fails; held back it is asked about; else it runs and is answered, and a result
      gets a report and a done of its own. */
  lemma CommandIsAnswered(classify: string -> Decision, s: Session, input: Input)
    requires Consistent(classify) && EnvFits(s.d, input.msg, input.env) && input.msg.Command? && Kept(input.env.outcome)
    ensures var text, o, events := input.msg.command, input.env.outcome, Events(classify, s, input);
            if input.msg.pid == "" then events == [Failed(text, MissingPid)]
            else if !classify(text).autoExecutable then events == [ConfirmationRequired(text)]
            else if o.error.Some? then events == [Executed(text), Failed(text, ExecFailed(o.error.value))]
            else |events| == 4 && events[..2] == [Executed(text), CommandResult(text, o.result)] && events[2].Report? && events[3] == Done
  {
    assert classify(input.msg.command).autoExecutable ==> !classify(input.msg.command).requiresConfirmation;
  }

  /** The text that a confirm runs: its own, or that of the command last planned under its identifier, or none. */
  function TextToRun(s: Session, id: string, text: string): string {
    if text != "" then text else if id in s.known then s.known[id].command else ""
  }

  /** A confirm always runs its text and is answered at once; it is the only command of the step, and nobody is asked. */
  lemma ConfirmIsAnswered(classify: string -> Decision, s: Session, input: Input)
    requires EnvFits(s.d, input.msg, input.env) && input.msg.Confirm?
    ensures var text, events := TextToRun(s, input.msg.id, input.msg.command), Events(classify, s, input);
            && |events| >= 2 && events[..2] == [Executed(text), Answer(text, input.env.outcome)]
            && (forall e | e in events[2..] :: e.Report? || e.Done?)
    ensures input.env.outcome.error.Some? ==> |Events(classify, s, input)| == 2 && After(classify, s, input) == s
  {
    ConfirmTells(s.d, input.msg.id, ConfirmedText(input.msg, s.known), input.env);
  }

  lemma ConfirmTells(d: Diagnosis, id: string, text: string, env: Env)
    ensures var events := ConfirmEvents(d, id, text, env);
            && |events| >= 2 && events[..2] == [Executed(text), Answer(text, env.outcome)]
            && (forall e | e in events[2..] :: e.Report? || e.Done?)
            && (env.outcome.error.Some? ==> |events| == 2)
  {
    var events := ConfirmEvents(d, id, text, env);
    var ran := [Executed(text), Answer(text, env.outcome)];
    var after := ConfirmAfter(d, id, text, env);
    var rest :=
      if env.outcome.error.Some? then []
      else if ConfirmedKey(d, id, text, env).None? then AdHocReport(text, FormatEvidence(text, env.outcome.result))
      else if ShouldReport(after) then SessionReport(after) + [Done] else [];
    assert events == ran + rest;
    assert events[2..] == rest;
  }

  /** A skip runs and asks nothing; a prompt without a plan and an unknown message get one error. None but a skip changes
      the session. */
  lemma OthersAreAnswered(classify: string -> Decision, s: Session, input: Input)
    requires EnvFits(s.d, input.msg, input.env)
    ensures input.msg.Skip? ==> forall e | e in Events(classify, s, input) :: e.Report? || e.Done?
    ensures input.msg.Prompt? && input.env.plan.None? ==>
      Events(classify, s, input) == [Failed("", PlanFailed(input.env.planError))] && After(classify, s, input) == s
    ensures input.msg.Unknown? ==> Events(classify, s, input) == [Failed("", UnknownMessage)] && After(classify, s, input) == s
    ensures input.msg.Command? ==> After(classify, s, input) == s
  {
  }

  // ---------------------------------------------------------------- which command is taken

  ghost predicate HasText(pending: map<string, PlannedCommand>, text: string) {
    exists k :: k in pending && pending[k].command == text
  }

  /** A skip, or a confirm that did not fail, takes out the command with its identifier; else one with its text; else
      none. */
  lemma RequestTakesWhatItNames(classify: string -> Decision, s: Session, input: Input)
    requires EnvFits(s.d, input.msg, input.env)
    requires input.msg.Skip? || (input.msg.Confirm? && input.env.outcome.error.None?)
    ensures var id, pending, after := input.msg.id, s.d.pending, After(classify, s, input).d.pending;
            var text := if input.msg.Skip? then input.msg.command else TextToRun(s, id, input.msg.command);
            if id != "" && id in pending then after == pending - {id}
            else if HasText(pending, text) then exists k :: k in pending && pending[k].command == text && after == pending - {k}
            else after == pending
  {
    StepTakes(classify, s, input);
    var id := input.msg.id;
    var text := if input.msg.Skip? then input.msg.command else TextToRun(s, id, input.msg.command);
    var k := FirstMatch(input.env.order, s.d.pending, text);
    if k.Some? {
      assert s.d.pending[k.value].command == text;
    }
  }

  lemma {:induction false} KnownStays(classify: string -> Decision, s: Session, inputs: seq<Input>)
    requires Runs(classify, s, inputs) && SameRound(inputs)
    ensures Run(classify, s, inputs).known == s.known
    decreases |inputs|
  {
    if inputs != [] {
      StepTakes(classify, s, inputs[0]);
      KnownStays(classify, After(classify, s, inputs[0]), inputs[1..]);
    }
  }

  /** A confirm that carries only the identifier of a command of the plan runs that command, however late in the round. */
  lemma ConfirmByIdRunsItsCommand(classify: string -> Decision, s: Session, prompt: Input, after: seq<Input>, confirm: Input, i: nat)
    requires EnvFits(s.d, prompt.msg, prompt.env) && IsNewRound(prompt)
    requires Runs(classify, After(classify, s, prompt), after) && SameRound(after)
    requires var commands := prompt.env.plan.value.commands;
             i < |commands| && HasIds(commands) && DistinctIds(commands) && confirm.msg == Confirm(commands[i].id, "")
    requires EnvFits(Run(classify, After(classify, s, prompt), after).d, confirm.msg, confirm.env)
    ensures ExecutedIn(Events(classify, Run(classify, After(classify, s, prompt), after), confirm)) == [prompt.env.plan.value.commands[i].command]
  {
    var m := After(classify, s, prompt);
    KnownStays(classify, m, after);
    StoredLookup(s.known, prompt.env.plan.value.commands, i);
    ConfirmExecutesOne(classify, Run(classify, m, after), confirm);
  }

  // ---------------------------------------------------------------- what evidence shows

  /** The evidence of a command is its text, and behind it the whole output: stdout, and stderr where there is any. */
  lemma EvidenceShowsTheOutput(command: string, result: ExecResult)
    ensures var e := FormatEvidence(command, Some(result));
            && HasPrefix(e, command)
            && OccursAt(e, result.stdout, |command| + 1)
            && HasSuffix(e, result.stderr)
            && |e| == |command| + 1 + |result.stdout| + if result.stderr == "" then 0 else |"\n[stderr]\n"| + |result.stderr|
  {
    var e := FormatEvidence(command, Some(result));
    var tail := if result.stderr != "" then "\n[stderr]\n" + result.stderr else "";
    assert e == command + "\n" + result.stdout + tail;
    if result.stderr != "" {
      assert e == (command + "\n" + result.stdout + "\n[stderr]\n") + result.stderr;
    }
  }

  /** So two results of one command with nothing on stderr give the same evidence only when they are the same. */
  lemma EvidenceTellsResultsApart(command: string, a: string, b: string)
    ensures FormatEvidence(command, Some(ExecResult(a, ""))) == FormatEvidence(command, Some(ExecResult(b, ""))) ==> a == b
  {
    EvidenceShowsTheOutput(command, ExecResult(a, ""));
    EvidenceShowsTheOutput(command, ExecResult(b, ""));
  }
}

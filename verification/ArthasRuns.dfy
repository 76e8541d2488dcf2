// What holds over every run of a diagnosis session, for any decision function and any executor.

module ArthasRuns {
  import opened Wrappers
  import opened ArthasPolicy
  import opened ArthasPlan
  import opened ArthasSession

  type Known = map<string, PlannedCommand>

  datatype Input = Input(msg: Message, env: Env)

  datatype Session = Session(d: Diagnosis, known: Known)

  ghost predicate Runs(classify: string -> Decision, s: Session, inputs: seq<Input>)
    decreases |inputs|
  {
    inputs == []
    || (EnvFits(s.d, inputs[0].msg, inputs[0].env) && Runs(classify, After(classify, s, inputs[0]), inputs[1..]))
  }

  function After(classify: string -> Decision, s: Session, input: Input): Session
    requires EnvFits(s.d, input.msg, input.env)
  {
    var t := Step(classify, s.d, s.known, input.msg, input.env);
    Session(t.after, t.known)
  }

  function Run(classify: string -> Decision, s: Session, inputs: seq<Input>): Session
    requires Runs(classify, s, inputs)
    decreases |inputs|
  {
    if inputs == [] then s else Run(classify, After(classify, s, inputs[0]), inputs[1..])
  }

  // ---------------------------------------------------------------- the prompt step

  function NonEmpty(e: string): seq<string> {
    if e == "" then [] else [e]
  }

  predicate Succeeds(classify: string -> Decision, pid: string, command: string, o: Outcome) {
    && pid != "" && classify(command).autoExecutable && o.error.None?
    && (o.result.Some? || !classify(command).requiresConfirmation)
  }

  /** The results of the automatically executed commands that succeeded, in plan order. */
  function AutoEvidence(classify: string -> Decision, pid: string, commands: seq<PlannedCommand>, outcomes: seq<Outcome>): seq<string>
    requires |outcomes| == |commands|
    decreases |commands|
  {
    if commands == [] then []
    else
      (if Succeeds(classify, pid, commands[0].command, outcomes[0])
       then NonEmpty(FormatEvidence(commands[0].command, outcomes[0].result)) else [])
      + AutoEvidence(classify, pid, commands[1..], outcomes[1..])
  }

  /** The commands that the policy holds back, in plan order. */
  function HeldBack(classify: string -> Decision, commands: seq<PlannedCommand>): seq<PlannedCommand> {
    if commands == [] then []
    else (if classify(commands[0].command).autoExecutable then [] else [commands[0]]) + HeldBack(classify, commands[1..])
  }

  function AutoTexts(classify: string -> Decision, commands: seq<PlannedCommand>): seq<string> {
    if commands == [] then []
    else (if classify(commands[0].command).autoExecutable then [commands[0].command] else []) + AutoTexts(classify, commands[1..])
  }

  function ExecutedIn(events: seq<Event>): seq<string> {
    if events == [] then []
    else (if events[0].Executed? then [events[0].command] else []) + ExecutedIn(events[1..])
  }

  predicate HasIds(commands: seq<PlannedCommand>) {
    forall i | 0 <= i < |commands| :: commands[i].id != ""
  }

  lemma {:induction false} ExecutedInConcat(a: seq<Event>, b: seq<Event>)
    ensures ExecutedIn(a + b) == ExecutedIn(a) + ExecutedIn(b)
  {
    if a == [] {
      assert a + b == b;
    } else {
      assert (a + b)[1..] == a[1..] + b;
      ExecutedInConcat(a[1..], b);
    }
  }

  /** A stretch of the plan: `own` is appended to the evidence, `ran` is executed, and there is no report or done. */
  ghost predicate Ran(d: Diagnosis, after: Diagnosis, events: seq<Event>, own: seq<string>, ran: seq<string>) {
    && after.prompt == d.prompt && after.plan == d.plan
    && after.evidence == d.evidence + own
    && ExecutedIn(events) == ran
    && (forall e | e in events :: !e.Report? && !e.Done?)
  }

  lemma RanComposes(d: Diagnosis, d1: Diagnosis, e1: seq<Event>, own1: seq<string>, ran1: seq<string>,
                    d2: Diagnosis, e2: seq<Event>, own2: seq<string>, ran2: seq<string>)
    requires Ran(d, d1, e1, own1, ran1) && Ran(d1, d2, e2, own2, ran2)
    ensures Ran(d, d2, e1 + e2, own1 + own2, ran1 + ran2)
  {
    ExecutedInConcat(e1, e2);
    assert d.evidence + own1 + own2 == d.evidence + (own1 + own2);
  }

  /** What is executed: without a PID nothing is. */
  function ExecutedTexts(classify: string -> Decision, pid: string, commands: seq<PlannedCommand>): seq<string> {
    if pid == "" then [] else AutoTexts(classify, commands)
  }

  lemma PlanStepEffect(classify: string -> Decision, pid: string, d: Diagnosis, c: PlannedCommand, o: Outcome)
    ensures var (after, events) := PlanStep(classify, pid, d, c, o);
            Ran(d, after, events, AutoEvidence(classify, pid, [c], [o]), ExecutedTexts(classify, pid, [c]))
  {
    AutoOfOne(classify, pid, c, o);
    ExecutedInReply(classify, pid, d, c, o);
    StepEvidenceOfPlan(classify, pid, d, c, o);
  }

  lemma StepEvidenceOfPlan(classify: string -> Decision, pid: string, d: Diagnosis, c: PlannedCommand, o: Outcome)
    ensures var (after, events) := PlanStep(classify, pid, d, c, o);
            && after.prompt == d.prompt && after.plan == d.plan
            && after.evidence == d.evidence + (if Succeeds(classify, pid, c.command, o) then NonEmpty(FormatEvidence(c.command, o.result)) else [])
            && (forall e | e in events :: !e.Report? && !e.Done?)
  {
    assert d.evidence + [] == d.evidence;
  }

  lemma AutoOfOne(classify: string -> Decision, pid: string, c: PlannedCommand, o: Outcome)
    ensures AutoEvidence(classify, pid, [c], [o])
         == if Succeeds(classify, pid, c.command, o) then NonEmpty(FormatEvidence(c.command, o.result)) else []
    ensures AutoTexts(classify, [c]) == if classify(c.command).autoExecutable then [c.command] else []
  {
    assert [c][1..] == [] && [o][1..] == [];
    assert AutoTexts(classify, [c][1..]) == [] && AutoEvidence(classify, pid, [c][1..], [o][1..]) == [];
  }

  lemma ExecutedInReply(classify: string -> Decision, pid: string, d: Diagnosis, c: PlannedCommand, o: Outcome)
    ensures ExecutedIn(PlanStep(classify, pid, d, c, o).1)
         == if pid != "" && classify(c.command).autoExecutable then [c.command] else []
  {
    var events := PlanStep(classify, pid, d, c, o).1;
    assert 1 <= |events| <= 2;
    if |events| == 1 {
      assert events[1..] == [];
    } else {
      assert events[1..] == [events[1]] && events[1..][1..] == [] && !events[1].Executed?;
      assert ExecutedIn(events[1..]) == [];
    }
  }

  lemma AutoSplits(classify: string -> Decision, pid: string, commands: seq<PlannedCommand>, outcomes: seq<Outcome>)
    requires |outcomes| == |commands| > 0
    ensures AutoEvidence(classify, pid, commands, outcomes)
         == AutoEvidence(classify, pid, [commands[0]], [outcomes[0]]) + AutoEvidence(classify, pid, commands[1..], outcomes[1..])
    ensures AutoTexts(classify, commands) == AutoTexts(classify, [commands[0]]) + AutoTexts(classify, commands[1..])
  {
    var c, o := [commands[0]], [outcomes[0]];
    assert c[1..] == [] && o[1..] == [];
    assert AutoTexts(classify, c[1..]) == [] && AutoEvidence(classify, pid, c[1..], o[1..]) == [];
  }

  /** The prompt step appends exactly the successful automatic results, executes exactly the automatic commands
      in order, and emits neither a report nor a done on its way. */
  lemma {:induction false} PlanTurnEffect(classify: string -> Decision, pid: string, d: Diagnosis,
                                          commands: seq<PlannedCommand>, outcomes: seq<Outcome>)
    requires |outcomes| == |commands|
    ensures var (after, events) := PlanTurn(classify, pid, d, commands, outcomes);
            Ran(d, after, events, AutoEvidence(classify, pid, commands, outcomes), ExecutedTexts(classify, pid, commands))
    decreases |commands|
  {
    if commands != [] {
      var (d1, e1) := PlanStep(classify, pid, d, commands[0], outcomes[0]);
      var (d2, e2) := PlanTurn(classify, pid, d1, commands[1..], outcomes[1..]);
      var c, o := [commands[0]], [outcomes[0]];
      PlanStepEffect(classify, pid, d, commands[0], outcomes[0]);
      PlanTurnEffect(classify, pid, d1, commands[1..], outcomes[1..]);
      RanComposes(d, d1, e1, AutoEvidence(classify, pid, c, o), ExecutedTexts(classify, pid, c),
                  d2, e2, AutoEvidence(classify, pid, commands[1..], outcomes[1..]), ExecutedTexts(classify, pid, commands[1..]));
      AutoSplits(classify, pid, commands, outcomes);
    }
  }

  /** The commands added to pending are exactly those held back, in plan order. */
  lemma {:induction false} PlanTurnPending(classify: string -> Decision, pid: string, d: Diagnosis,
                                           commands: seq<PlannedCommand>, outcomes: seq<Outcome>)
    requires |outcomes| == |commands|
    ensures PlanTurn(classify, pid, d, commands, outcomes).0.pending == AddAll(d.pending, HeldBack(classify, commands))
    decreases |commands|
  {
    if commands != [] {
      var d1 := PlanStep(classify, pid, d, commands[0], outcomes[0]).0;
      PlanTurnPending(classify, pid, d1, commands[1..], outcomes[1..]);
      var rest := HeldBack(classify, commands[1..]);
      assert [] + rest == rest && ([commands[0]] + rest)[1..] == rest;
    }
  }

  /** A command is addressed by its identifier, or by its text if it has none. */
  function KeyOf(c: PlannedCommand): string {
    if c.id != "" then c.id else c.command
  }

  /** A command with neither cannot be addressed, and is not remembered. */
  function Remember(pending: map<string, PlannedCommand>, c: PlannedCommand): map<string, PlannedCommand> {
    if KeyOf(c) == "" then pending else pending[KeyOf(c) := c]
  }

  function AddAll(pending: map<string, PlannedCommand>, commands: seq<PlannedCommand>): map<string, PlannedCommand>
    decreases |commands|
  {
    if commands == [] then pending else AddAll(Remember(pending, commands[0]), commands[1..])
  }

  /** The commands can be addressed, each by a key of its own. */
  predicate DistinctKeys(commands: seq<PlannedCommand>) {
    && (forall i | 0 <= i < |commands| :: KeyOf(commands[i]) != "")
    && (forall i: nat, j: nat | i < |commands| && j < |commands| && i != j :: KeyOf(commands[i]) != KeyOf(commands[j]))
  }

  /** The map holds exactly these commands, each under its key. */
  ghost predicate Holds(pending: map<string, PlannedCommand>, commands: seq<PlannedCommand>) {
    && |pending| == |commands|
    && (forall i | 0 <= i < |commands| :: KeyOf(commands[i]) in pending && pending[KeyOf(commands[i])] == commands[i])
    && (forall k | k in pending :: exists i :: 0 <= i < |commands| && KeyOf(commands[i]) == k)
  }

  lemma {:induction false} AddAllHolds(pending: map<string, PlannedCommand>, before: seq<PlannedCommand>, commands: seq<PlannedCommand>)
    requires Holds(pending, before) && DistinctKeys(before + commands)
    ensures Holds(AddAll(pending, commands), before + commands)
    decreases |commands|
  {
    if commands == [] {
      assert before + commands == before;
    } else {
      var c := commands[0];
      var all := before + commands;
      assert all[|before|] == c;
      assert KeyOf(c) !in pending by {
        forall i | 0 <= i < |before| ensures KeyOf(before[i]) != KeyOf(c) {
          assert all[i] == before[i];
        }
      }
      assert before + [c] + commands[1..] == all;
      HoldsOneMore(pending, before, c);
      AddAllHolds(Remember(pending, c), before + [c], commands[1..]);
    }
  }

  lemma HoldsOneMore(pending: map<string, PlannedCommand>, before: seq<PlannedCommand>, c: PlannedCommand)
    requires Holds(pending, before) && KeyOf(c) !in pending && KeyOf(c) != ""
    ensures Holds(Remember(pending, c), before + [c])
  {
    var p, all := Remember(pending, c), before + [c];
    assert all[|before|] == c;
    forall k | k in p ensures exists i :: 0 <= i < |all| && KeyOf(all[i]) == k {
      if k != KeyOf(c) {
        var i :| 0 <= i < |before| && KeyOf(before[i]) == k;
        assert KeyOf(all[i]) == k;
      }
    }
  }

  lemma {:induction false} NoEmptyKey(pending: map<string, PlannedCommand>, commands: seq<PlannedCommand>)
    requires "" !in pending
    ensures "" !in AddAll(pending, commands)
    decreases |commands|
  {
    if commands != [] {
      NoEmptyKey(Remember(pending, commands[0]), commands[1..]);
    }
  }

  lemma {:induction false} HeldBackAreOfThePlan(classify: string -> Decision, commands: seq<PlannedCommand>)
    ensures forall c | c in HeldBack(classify, commands) :: c in commands && !classify(c.command).autoExecutable
  {
    if commands != [] {
      HeldBackAreOfThePlan(classify, commands[1..]);
    }
  }

  lemma {:induction false} HeldBackIsDistinct(classify: string -> Decision, commands: seq<PlannedCommand>)
    requires DistinctKeys(commands)
    ensures DistinctKeys(HeldBack(classify, commands))
  {
    if commands != [] {
      assert forall i | 0 <= i < |commands[1..]| :: commands[1..][i] == commands[i + 1];
      HeldBackIsDistinct(classify, commands[1..]);
      HeldBackAreOfThePlan(classify, commands[1..]);
      var rest := HeldBack(classify, commands[1..]);
      forall j | 0 <= j < |rest| ensures KeyOf(rest[j]) != KeyOf(commands[0]) {
        assert rest[j] in commands[1..];
      }
    }
  }

  function Keys(commands: seq<PlannedCommand>): set<string> {
    set c | c in commands :: KeyOf(c)
  }

  lemma {:induction false} KeysCount(commands: seq<PlannedCommand>)
    ensures |Keys(commands)| <= |commands|
    ensures |Keys(commands)| == |commands| && "" !in Keys(commands) ==> DistinctKeys(commands)
  {
    if commands == [] {
      assert Keys(commands) == {};
    } else {
      var c, rest := commands[0], commands[1..];
      KeysCount(rest);
      assert Keys(commands) == Keys(rest) + {KeyOf(c)};
      if KeyOf(c) !in Keys(rest) && KeyOf(c) != "" {
        KeysOneMore(c, rest);
        assert [c] + rest == commands;
      }
    }
  }

  lemma KeysOneMore(c: PlannedCommand, rest: seq<PlannedCommand>)
    requires KeyOf(c) !in Keys(rest) && KeyOf(c) != ""
    ensures DistinctKeys(rest) ==> DistinctKeys([c] + rest)
  {
    forall j | 0 <= j < |rest| ensures KeyOf(rest[j]) != KeyOf(c) {
      assert rest[j] in rest;
    }
  }

  lemma HoldsMeansDistinct(pending: map<string, PlannedCommand>, commands: seq<PlannedCommand>)
    requires Holds(pending, commands) && "" !in pending
    ensures DistinctKeys(commands)
  {
    forall k | k in pending ensures k in Keys(commands) {
      var i :| 0 <= i < |commands| && KeyOf(commands[i]) == k;
      assert commands[i] in commands;
    }
    assert pending.Keys == Keys(commands);
    assert |pending.Keys| == |pending|;
    KeysCount(commands);
  }

  /** The prompt step leaves exactly the held-back commands pending, each under its identifier or, without one, under its
      text, if and only if these keys are distinct and not empty. */
  lemma PromptLeavesHeldBackPending(classify: string -> Decision, s: Session, msg: Message, env: Env)
    requires msg.Prompt? && env.plan.Some? && EnvFits(s.d, msg, env)
    ensures Holds(After(classify, s, Input(msg, env)).d.pending, HeldBack(classify, env.plan.value.commands))
       <==> DistinctKeys(HeldBack(classify, env.plan.value.commands))
  {
    var commands := env.plan.value.commands;
    var start := Diagnosis(msg.prompt, env.plan, msg.evidence, map[]);
    PlanTurnPending(classify, msg.pid, start, commands, env.outcomes);
    var held := HeldBack(classify, commands);
    assert After(classify, s, Input(msg, env)).d.pending == AddAll(map[], held);
    if DistinctKeys(held) {
      assert [] + held == held;
      AddAllHolds(map[], [], held);
    }
    if Holds(AddAll(map[], held), held) {
      NoEmptyKey(map[], held);
      HoldsMeansDistinct(AddAll(map[], held), held);
    }
  }

  /** So a plan that went through applyPolicy loses no command to a clash of identifiers if the model's own ones do
      not clash. */
  lemma AppliedPlanLosesNothing(p: Policy, given: seq<PlannedCommand>, classify: string -> Decision, s: Session, msg: Message, env: Env)
    requires msg.Prompt? && env.plan.Some? && EnvFits(s.d, msg, env)
    requires env.plan.value.commands == Applied(p, given) && NoClash(given)
    ensures Holds(After(classify, s, Input(msg, env)).d.pending, HeldBack(classify, env.plan.value.commands))
  {
    ApplyPolicySettles(p, given);
    ApplyPolicyKeepsIdsDistinct(p, given);
    IdsAreKeys(env.plan.value.commands);
    HeldBackIsDistinct(classify, env.plan.value.commands);
    PromptLeavesHeldBackPending(classify, s, msg, env);
  }

  lemma IdsAreKeys(commands: seq<PlannedCommand>)
    requires HasIds(commands) && DistinctIds(commands)
    ensures DistinctKeys(commands)
  {
  }

  // ---------------------------------------------------------------- confirm and skip

  ghost predicate Submap(p: map<string, PlannedCommand>, q: map<string, PlannedCommand>) {
    forall k | k in p :: k in q && p[k] == q[k]
  }

  /** The pending command that this input takes out, if any. */
  function Addressed(s: Session, input: Input): (k: Option<string>)
    ensures k.Some? ==> k.value in s.d.pending
  {
    match input.msg
    case Confirm(id, _) =>
      ConfirmedKey(s.d, id, ConfirmedText(input.msg, s.known), input.env)
    case Skip(id, command) => ResolvedKey(s.d.pending, id, command, input.env.order)
    case _ => None
  }

  predicate Resolves(s: Session, input: Input) {
    Addressed(s, input).Some?
  }

  predicate IsNewRound(input: Input) {
    input.msg.Prompt? && input.env.plan.Some?
  }

  /** The session after taking one command out of pending, or none. */
  predicate Took(d: Diagnosis, after: Diagnosis, k: Option<string>) {
    && after.prompt == d.prompt && after.plan == d.plan
    && (k.Some? ==> after.pending == d.pending - {k.value})
    && (k.None? ==> after == d)
  }

  lemma ConfirmTakes(d: Diagnosis, id: string, text: string, env: Env)
    ensures Took(d, ConfirmAfter(d, id, text, env), ConfirmedKey(d, id, text, env))
  {
  }

  lemma StepTakes(classify: string -> Decision, s: Session, input: Input)
    requires EnvFits(s.d, input.msg, input.env) && !IsNewRound(input)
    ensures Took(s.d, After(classify, s, input).d, Addressed(s, input))
    ensures After(classify, s, input).known == s.known
  {
    if input.msg.Confirm? {
      ConfirmTakes(s.d, input.msg.id, ConfirmedText(input.msg, s.known), input.env);
    }
  }

  /** Every confirm or skip that matches takes exactly one command out of pending; every other input except a
      new round leaves the session alone. */
  lemma PendingShrinksByOne(classify: string -> Decision, s: Session, input: Input)
    requires EnvFits(s.d, input.msg, input.env) && !IsNewRound(input)
    ensures var t := After(classify, s, input);
            && Took(s.d, t.d, Addressed(s, input)) && t.known == s.known
            && Submap(t.d.pending, s.d.pending)
            && |t.d.pending| == |s.d.pending| - if Resolves(s, input) then 1 else 0
  {
    StepTakes(classify, s, input);
    TookOne(s.d, After(classify, s, input).d, Addressed(s, input));
  }

  lemma TookOne(d: Diagnosis, after: Diagnosis, k: Option<string>)
    requires Took(d, after, k) && (k.Some? ==> k.value in d.pending)
    ensures Submap(after.pending, d.pending)
    ensures |after.pending| == |d.pending| - if k.Some? then 1 else 0
  {
    if k.Some? {
      SizeWithout(d.pending, k.value);
    }
  }

  lemma SizeWithout(p: map<string, PlannedCommand>, k: string)
    requires k in p
    ensures |p - {k}| == |p| - 1
  {
    assert (p - {k})[k := p[k]] == p;
  }

  function Resolutions(classify: string -> Decision, s: Session, inputs: seq<Input>): nat
    requires Runs(classify, s, inputs)
    decreases |inputs|
  {
    if inputs == [] then 0
    else (if Resolves(s, inputs[0]) then 1 else 0) + Resolutions(classify, After(classify, s, inputs[0]), inputs[1..])
  }

  predicate SameRound(inputs: seq<Input>) {
    forall i | 0 <= i < |inputs| :: !IsNewRound(inputs[i])
  }

  /** The results of the confirmed commands, in confirmation order. */
  function ConfirmedEvidence(classify: string -> Decision, s: Session, inputs: seq<Input>): seq<string>
    requires Runs(classify, s, inputs)
    decreases |inputs|
  {
    if inputs == [] then []
    else OwnEvidence(s, inputs[0]) + ConfirmedEvidence(classify, After(classify, s, inputs[0]), inputs[1..])
  }

  /** How a stretch of a round changes the session: `added` is appended to the evidence, `resolved` commands are
      taken out of pending. */
  ghost predicate Progress(d: Diagnosis, t: Diagnosis, resolved: nat, added: seq<string>) {
    && |t.pending| + resolved == |d.pending|
    && Submap(t.pending, d.pending)
    && t.evidence == d.evidence + added
    && |added| <= resolved
    && t.plan == d.plan && t.prompt == d.prompt
  }

  lemma ProgressComposes(d: Diagnosis, m: Diagnosis, t: Diagnosis, r1: nat, a1: seq<string>, r2: nat, a2: seq<string>)
    requires Progress(d, m, r1, a1) && Progress(m, t, r2, a2)
    ensures Progress(d, t, r1 + r2, a1 + a2)
  {
    assert d.evidence + a1 + a2 == d.evidence + (a1 + a2);
  }

  /** What one input adds to the evidence. */
  function OwnEvidence(s: Session, input: Input): seq<string> {
    if input.msg.Confirm? && Resolves(s, input)
    then NonEmpty(FormatEvidence(ConfirmedText(input.msg, s.known), input.env.outcome.result)) else []
  }

  lemma StepProgress(classify: string -> Decision, s: Session, input: Input)
    requires EnvFits(s.d, input.msg, input.env) && !IsNewRound(input)
    ensures Progress(s.d, After(classify, s, input).d, if Resolves(s, input) then 1 else 0, OwnEvidence(s, input))
  {
    PendingShrinksByOne(classify, s, input);
    StepEvidence(classify, s, input);
  }

  /** Within a round: commands pending + commands resolved stays constant, and evidence only grows by confirmed
      results. Failed confirms, skips, ad-hoc commands and unknown messages add nothing. */
  lemma {:induction false} RoundConserves(classify: string -> Decision, s: Session, inputs: seq<Input>)
    requires Runs(classify, s, inputs) && SameRound(inputs)
    ensures Progress(s.d, Run(classify, s, inputs).d, Resolutions(classify, s, inputs), ConfirmedEvidence(classify, s, inputs))
    decreases |inputs|
  {
    if inputs == [] {
      assert s.d.evidence + [] == s.d.evidence;
    } else {
      var m := After(classify, s, inputs[0]);
      StepProgress(classify, s, inputs[0]);
      RoundConserves(classify, m, inputs[1..]);
      ProgressComposes(s.d, m.d, Run(classify, m, inputs[1..]).d, if Resolves(s, inputs[0]) then 1 else 0,
                       OwnEvidence(s, inputs[0]), Resolutions(classify, m, inputs[1..]), ConfirmedEvidence(classify, m, inputs[1..]));
    }
  }

  lemma StepEvidence(classify: string -> Decision, s: Session, input: Input)
    requires EnvFits(s.d, input.msg, input.env) && !IsNewRound(input)
    ensures After(classify, s, input).d.evidence == s.d.evidence + OwnEvidence(s, input)
  {
  }

  lemma {:induction false} RunConcat(classify: string -> Decision, s: Session, a: seq<Input>, b: seq<Input>)
    requires Runs(classify, s, a + b)
    ensures Runs(classify, s, a) && Runs(classify, Run(classify, s, a), b)
    ensures Run(classify, s, a + b) == Run(classify, Run(classify, s, a), b)
    decreases |a|
  {
    if a == [] {
      assert a + b == b;
    } else {
      assert (a + b)[1..] == a[1..] + b;
      RunConcat(classify, After(classify, s, a[0]), a[1..], b);
    }
  }

  /** Over every run: whatever happened before the last successful prompt, the evidence is that prompt's initial
      evidence, then the results of its automatic commands in plan order, then the confirmed results in
      confirmation order; and of the commands it held back, those not resolved since are still pending. */
  lemma EvidenceOfEveryRun(classify: string -> Decision, s: Session, before: seq<Input>, prompt: Input, after: seq<Input>)
    requires Runs(classify, s, before + ([prompt] + after))
    requires IsNewRound(prompt) && SameRound(after)
    ensures Runs(classify, s, before) && EnvFits(Run(classify, s, before).d, prompt.msg, prompt.env)
    ensures var commands, m := prompt.env.plan.value.commands, After(classify, Run(classify, s, before), prompt);
            var t := Run(classify, s, before + ([prompt] + after));
            && Runs(classify, m, after)
            && t.d.evidence == prompt.msg.evidence + AutoEvidence(classify, prompt.msg.pid, commands, prompt.env.outcomes)
                             + ConfirmedEvidence(classify, m, after)
            && (DistinctKeys(HeldBack(classify, commands)) ==>
                  && |t.d.pending| + Resolutions(classify, m, after) == |HeldBack(classify, commands)|
                  && forall k | k in t.d.pending :: t.d.pending[k] in HeldBack(classify, commands) && KeyOf(t.d.pending[k]) == k)
  {
    RunConcat(classify, s, before, [prompt] + after);
    var b := Run(classify, s, before);
    assert ([prompt] + after)[1..] == after;
    var m := After(classify, b, prompt);
    RoundConserves(classify, m, after);
    var commands := prompt.env.plan.value.commands;
    var start := Diagnosis(prompt.msg.prompt, prompt.env.plan, prompt.msg.evidence, map[]);
    PlanTurnEffect(classify, prompt.msg.pid, start, commands, prompt.env.outcomes);
    if DistinctKeys(HeldBack(classify, commands)) {
      PromptLeavesHeldBackPending(classify, b, prompt.msg, prompt.env);
      SubmapOfHeld(Run(classify, m, after).d.pending, m.d.pending, HeldBack(classify, commands));
    }
  }

  lemma SubmapOfHeld(p: map<string, PlannedCommand>, q: map<string, PlannedCommand>, held: seq<PlannedCommand>)
    requires Submap(p, q) && Holds(q, held)
    ensures forall k | k in p :: p[k] in held && KeyOf(p[k]) == k
  {
  }
}

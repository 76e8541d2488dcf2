// One Arthas diagnosis session: the message-driven state machine of handleWSMessage over arthasDiagnosisState.
// Executing a command, building a plan and Go's map iteration order are inputs of each step.

module ArthasSession {
  import opened Wrappers
  import opened ArthasPolicy
  import opened ArthasPlan

  datatype ExecResult = ExecResult(stdout: string, stderr: string)

  /** What the executor returned for one command. */
  datatype Outcome = Outcome(result: Option<ExecResult>, error: Option<string>)

  /** The executor's contract: without an error there is a result. */
  predicate Kept(o: Outcome) {
    o.error.None? ==> o.result.Some?
  }

  datatype Plan = Plan(intent: string, skill: string, commands: seq<PlannedCommand>)

  datatype Failure = MissingPid | PlanFailed(message: string) | ExecFailed(message: string) | UnknownMessage

  /** The trace of a session: what is sent to the client, and (Executed) what is run in the pod. A report is
      recorded by what it is built from. */
  datatype Event =
    | PlanSent(plan: Plan)
    | ConfirmationRequired(command: string)
    | Executed(command: string)
    | CommandResult(command: string, result: Option<ExecResult>)
    | Failed(command: string, failure: Failure)
    | Report(prompt: string, plan: Plan, evidence: seq<string>)
    | Done

  datatype Message =
    | Prompt(prompt: string, evidence: seq<string>, pid: string)
    | Command(command: string, pid: string)
    | Confirm(id: string, command: string)
    | Skip(id: string, command: string)
    | Unknown

  /** The environment's part in one step. `plan` is None when planning fails; `outcomes` has one entry per plan
      command; `order` is the order in which Go would visit the pending map. */
  datatype Env = Env(plan: Option<Plan>, planError: string, outcomes: seq<Outcome>, outcome: Outcome, order: seq<string>)

  /** The fields of arthasDiagnosisState. */
  datatype Diagnosis = Diagnosis(prompt: string, plan: Option<Plan>, evidence: seq<string>,
                                 pending: map<string, PlannedCommand>)

  const Fresh := Diagnosis("", None, [], map[])

  function FormatEvidence(command: string, result: Option<ExecResult>): string {
    match result
    case None => command
    case Some(r) => command + "\n" + r.stdout + if r.stderr != "" then "\n[stderr]\n" + r.stderr else ""
  }

  // ---------------------------------------------------------------- operations on the state

  function PendingKey(c: PlannedCommand): string {
    if c.id == "" then c.command else c.id
  }

  function WithPending(d: Diagnosis, c: PlannedCommand): Diagnosis {
    if PendingKey(c) == "" then d else d.(pending := d.pending[PendingKey(c) := c])
  }

  function WithEvidence(d: Diagnosis, e: string): Diagnosis {
    if e == "" then d else d.(evidence := d.evidence + [e])
  }

  ghost predicate Visits(order: seq<string>, pending: map<string, PlannedCommand>) {
    forall k :: k in order <==> k in pending
  }

  /** The first visited key whose command has this text. */
  function FirstMatch(order: seq<string>, pending: map<string, PlannedCommand>, text: string): (k: Option<string>)
    ensures k.Some? ==> k.value in pending && pending[k.value].command == text
    ensures k.None? ==> forall x | x in order && x in pending :: pending[x].command != text
  {
    if order == [] then None
    else if order[0] in pending && pending[order[0]].command == text then Some(order[0])
    else FirstMatch(order[1..], pending, text)
  }

  /** The pending entry that a confirm or skip addresses. */
  function ResolvedKey(pending: map<string, PlannedCommand>, id: string, text: string, order: seq<string>): (k: Option<string>)
    ensures k.Some? ==> k.value in pending
  {
    if id != "" && id in pending then Some(id) else FirstMatch(order, pending, text)
  }

  function Without(d: Diagnosis, k: Option<string>): Diagnosis {
    if k.Some? then d.(pending := d.pending - {k.value}) else d
  }

  predicate ShouldReport(d: Diagnosis) {
    d.plan.Some? && |d.evidence| > 0 && |d.pending| == 0
  }

  class DiagnosisState {
    var prompt: string
    var plan: Option<Plan>
    var evidence: seq<string>
    var pending: map<string, PlannedCommand>

    function Value(): Diagnosis
      reads this
    {
      Diagnosis(prompt, plan, evidence, pending)
    }

    constructor ()
      ensures Value() == Fresh
    {
      prompt, plan, evidence, pending := "", None, [], map[];
    }

    method Start(prompt: string, plan: Plan, evidence: seq<string>)
      modifies this
      ensures Value() == Diagnosis(prompt, Some(plan), evidence, map[])
    {
      this.prompt, this.plan, this.evidence, this.pending := prompt, Some(plan), evidence, map[];
    }

    method AddPending(command: PlannedCommand)
      modifies this
      ensures Value() == WithPending(old(Value()), command)
    {
      var key := command.id;
      if key == "" {
        key := command.command;
      }
      if key != "" {
        pending := pending[key := command];
      }
    }

    method AddEvidence(e: string)
      modifies this
      ensures Value() == WithEvidence(old(Value()), e)
    {
      if e != "" {
        evidence := evidence + [e];
      }
    }

    method ResolvePending(id: string, command: string, order: seq<string>) returns (ok: bool)
      modifies this
      ensures Value() == Without(old(Value()), ResolvedKey(old(pending), id, command, order))
      ensures ok <==> ResolvedKey(old(pending), id, command, order).Some?
    {
      if id != "" {
        if id in pending {
          pending := pending - {id};
          return true;
        }
      }
      for i := 0 to |order|
        invariant Value() == old(Value())
        invariant FirstMatch(order, pending, command) == FirstMatch(order[i..], pending, command)
      {
        assert order[i..][1..] == order[i + 1..];
        if order[i] in pending && pending[order[i]].command == command {
          pending := pending - {order[i]};
          return true;
        }
      }
      return false;
    }

    predicate ShouldBuildReport()
      reads this
    {
      plan.Some? && |evidence| > 0 && |pending| == 0
    }
  }

  // ---------------------------------------------------------------- the steps

  /** Executing one command: the events, and the evidence if it succeeded. */
  datatype Reply = Reply(events: seq<Event>, evidence: Option<string>)

  function ExecuteReply(classify: string -> Decision, pid: string, command: string, o: Outcome): Reply {
    var d := classify(command);
    if pid == "" then Reply([Failed(command, MissingPid)], None)
    else if !d.autoExecutable then Reply([ConfirmationRequired(command)], None)
    else if o.result.None? && d.requiresConfirmation then Reply([Executed(command), ConfirmationRequired(command)], None)
    else if o.error.Some? then Reply([Executed(command), Failed(command, ExecFailed(o.error.value))], None)
    else Reply([Executed(command), CommandResult(command, o.result)], Some(FormatEvidence(command, o.result)))
  }

  function WithReply(d: Diagnosis, r: Reply): Diagnosis {
    if r.evidence.Some? then WithEvidence(d, r.evidence.value) else d
  }

  datatype Turn = Turn(after: Diagnosis, known: map<string, PlannedCommand>, events: seq<Event>)

  /** One command of the plan: it is executed when the policy allows, and set aside otherwise. */
  function PlanStep(classify: string -> Decision, pid: string, d: Diagnosis, c: PlannedCommand, o: Outcome)
    : (Diagnosis, seq<Event>)
  {
    if !classify(c.command).autoExecutable then (WithPending(d, c), [ConfirmationRequired(c.command)])
    else var r := ExecuteReply(classify, pid, c.command, o); (WithReply(d, r), r.events)
  }

  /** The loop over the plan's commands. */
  function PlanTurn(classify: string -> Decision, pid: string, d: Diagnosis, commands: seq<PlannedCommand>, outcomes: seq<Outcome>)
    : (Diagnosis, seq<Event>)
    requires |outcomes| == |commands|
    decreases |commands|
  {
    if commands == [] then (d, [])
    else
      var (d1, e1) := PlanStep(classify, pid, d, commands[0], outcomes[0]);
      var (d2, e2) := PlanTurn(classify, pid, d1, commands[1..], outcomes[1..]);
      (d2, e1 + e2)
  }

  function Stored(known: map<string, PlannedCommand>, commands: seq<PlannedCommand>): map<string, PlannedCommand> {
    if commands == [] then known
    else
      var c := commands[|commands| - 1];
      var before := Stored(known, commands[..|commands| - 1]);
      if c.id != "" then before[c.id := c] else before
  }

  predicate PromptDone(plan: Plan, initialEvidence: nat, evidence: nat, pending: nat) {
    |plan.commands| == 0 || (pending == 0 && evidence > initialEvidence)
  }

  function SessionReport(d: Diagnosis): seq<Event> {
    if ShouldReport(d) then [Report(d.prompt, d.plan.value, d.evidence)] else []
  }

  function AdHocReport(command: string, evidence: string): seq<Event> {
    [Report(command, Plan(command, "", []), [evidence]), Done]
  }

  /** The text that a confirm executes. */
  function ConfirmedText(msg: Message, known: map<string, PlannedCommand>): string
    requires msg.Confirm?
  {
    if msg.command != "" then msg.command else if msg.id in known then known[msg.id].command else ""
  }

  ghost predicate EnvFits(d: Diagnosis, msg: Message, env: Env) {
    && (msg.Prompt? && env.plan.Some? ==> |env.outcomes| == |env.plan.value.commands|)
    && (msg.Confirm? || msg.Skip? ==> Visits(env.order, d.pending))
  }

  function PromptTurn(classify: string -> Decision, d: Diagnosis, known: map<string, PlannedCommand>,
                      prompt: string, evidence: seq<string>, pid: string, env: Env): Turn
    requires env.plan.Some? ==> |env.outcomes| == |env.plan.value.commands|
  {
    if env.plan.None? then Turn(d, known, [Failed("", PlanFailed(env.planError))])
    else
      var plan := env.plan.value;
      var start := Diagnosis(prompt, Some(plan), evidence, map[]);
      var (after, events) := PlanTurn(classify, pid, start, plan.commands, env.outcomes);
      var done := if PromptDone(plan, |evidence|, |after.evidence|, |after.pending|) then [Done] else [];
      Turn(after, Stored(known, plan.commands), [PlanSent(plan)] + events + SessionReport(after) + done)
  }

  function CommandTurn(classify: string -> Decision, d: Diagnosis, known: map<string, PlannedCommand>,
                       command: string, pid: string, env: Env): Turn
  {
    var r := ExecuteReply(classify, pid, command, env.outcome);
    Turn(d, known, r.events + if r.evidence.Some? then AdHocReport(command, r.evidence.value) else [])
  }

  /** The pending entry that a confirm takes out: none when the execution failed. */
  function ConfirmedKey(d: Diagnosis, id: string, command: string, env: Env): (k: Option<string>)
    ensures k.Some? ==> k.value in d.pending
  {
    if env.outcome.error.Some? then None else ResolvedKey(d.pending, id, command, env.order)
  }

  function ConfirmAfter(d: Diagnosis, id: string, command: string, env: Env): Diagnosis {
    var k := ConfirmedKey(d, id, command, env);
    if k.None? then d else WithEvidence(Without(d, k), FormatEvidence(command, env.outcome.result))
  }

  function ConfirmEvents(d: Diagnosis, id: string, command: string, env: Env): seq<Event> {
    if env.outcome.error.Some? then [Executed(command), Failed(command, ExecFailed(env.outcome.error.value))]
    else
      var ran := [Executed(command), CommandResult(command, env.outcome.result)];
      var after := ConfirmAfter(d, id, command, env);
      if ConfirmedKey(d, id, command, env).None? then ran + AdHocReport(command, FormatEvidence(command, env.outcome.result))
      else if ShouldReport(after) then ran + SessionReport(after) + [Done]
      else ran
  }

  function ConfirmTurn(d: Diagnosis, known: map<string, PlannedCommand>, id: string, command: string, env: Env): Turn {
    Turn(ConfirmAfter(d, id, command, env), known, ConfirmEvents(d, id, command, env))
  }

  function SkipEvents(after: Diagnosis, resolved: bool): seq<Event> {
    if resolved && ShouldReport(after) then SessionReport(after) + [Done]
    else if after.plan.Some? && |after.pending| == 0 then [Done]
    else []
  }

  function SkipTurn(d: Diagnosis, known: map<string, PlannedCommand>, id: string, command: string, env: Env): Turn {
    var k := ResolvedKey(d.pending, id, command, env.order);
    Turn(Without(d, k), known, SkipEvents(Without(d, k), k.Some?))
  }

  /** handleWSMessage as a function of the state, the message and the environment. */
  function Step(classify: string -> Decision, d: Diagnosis, known: map<string, PlannedCommand>, msg: Message, env: Env): Turn
    requires EnvFits(d, msg, env)
  {
    match msg
    case Prompt(prompt, evidence, pid) => PromptTurn(classify, d, known, prompt, evidence, pid, env)
    case Command(command, pid) => CommandTurn(classify, d, known, command, pid, env)
    case Confirm(id, _) => ConfirmTurn(d, known, id, ConfirmedText(msg, known), env)
    case Skip(id, command) => SkipTurn(d, known, id, command, env)
    case Unknown => Turn(d, known, [Failed("", UnknownMessage)])
  }

  class ArthasHandler {
    const classify: string -> Decision       // newPolicy().Classify
    var known: map<string, PlannedCommand>   // the handler's own pending map: command texts by identifier
    var sent: seq<Event>

    constructor (policy: Policy)
      ensures classify == Classifier(policy) && known == map[] && sent == []
    {
      classify := Classifier(policy);
      known, sent := map[], [];
    }

    method SendWSEvent(e: Event)
      modifies this`sent
      ensures sent == old(sent) + [e]
    {
      sent := sent + [e];
    }

    method StorePendingCommands(commands: seq<PlannedCommand>)
      modifies this`known
      ensures known == Stored(old(known), commands)
    {
      for i := 0 to |commands|
        invariant known == Stored(old(known), commands[..i])
      {
        assert commands[..i + 1][..i] == commands[..i];
        if commands[i].id != "" {
          known := known[commands[i].id := commands[i]];
        }
      }
      assert commands[..|commands|] == commands;
    }

    method ExecuteWSCommand(pid: string, command: string, o: Outcome) returns (evidence: Option<string>)
      modifies this`sent
      ensures sent == old(sent) + ExecuteReply(classify, pid, command, o).events
      ensures evidence == ExecuteReply(classify, pid, command, o).evidence
    {
      if pid == "" {
        SendWSEvent(Failed(command, MissingPid));
        return None;
      }
      var decision := classify(command);
      var result: Option<ExecResult>, error: Option<string> := None, None;
      if decision.autoExecutable {
        SendWSEvent(Executed(command));
        result, error := o.result, o.error;
      }
      if result == None && decision.requiresConfirmation {
        SendWSEvent(ConfirmationRequired(command));
        return None;
      }
      if result == None && !decision.autoExecutable {
        SendWSEvent(ConfirmationRequired(command));
        return None;
      }
      if error != None {
        SendWSEvent(Failed(command, ExecFailed(error.value)));
        return None;
      }
      SendWSEvent(CommandResult(command, result));
      return Some(FormatEvidence(command, result));
    }

    /** The body of the loop over the plan's commands. */
    method RunPlanned(s: DiagnosisState, pid: string, command: PlannedCommand, o: Outcome)
      modifies this`sent, s
      ensures (s.Value(), sent) == (PlanStep(classify, pid, old(s.Value()), command, o).0,
                                    old(sent) + PlanStep(classify, pid, old(s.Value()), command, o).1)
    {
      var decision := classify(command.command);
      if !decision.autoExecutable {
        s.AddPending(command);
        SendWSEvent(ConfirmationRequired(command.command));
      } else {
        var evidence := ExecuteWSCommand(pid, command.command, o);
        if evidence.Some? {
          s.AddEvidence(evidence.value);
        }
      }
    }

    method RunPlan(s: DiagnosisState, pid: string, commands: seq<PlannedCommand>, outcomes: seq<Outcome>)
      requires |outcomes| == |commands|
      modifies this`sent, s
      ensures s.Value() == PlanTurn(classify, pid, old(s.Value()), commands, outcomes).0
      ensures sent == old(sent) + PlanTurn(classify, pid, old(s.Value()), commands, outcomes).1
    {
      ghost var (after, events) := PlanTurn(classify, pid, s.Value(), commands, outcomes);
      for i := 0 to |commands|
        invariant PlanTurn(classify, pid, s.Value(), commands[i..], outcomes[i..]).0 == after
        invariant sent + PlanTurn(classify, pid, s.Value(), commands[i..], outcomes[i..]).1 == old(sent) + events
      {
        ghost var d, trace := s.Value(), sent;
        RunPlanned(s, pid, commands[i], outcomes[i]);
        assert commands[i..][1..] == commands[i + 1..] && outcomes[i..][1..] == outcomes[i + 1..];
        ghost var (d1, e1) := PlanStep(classify, pid, d, commands[i], outcomes[i]);
        ghost var (d2, e2) := PlanTurn(classify, pid, d1, commands[i + 1..], outcomes[i + 1..]);
        assert trace + (e1 + e2) == (trace + e1) + e2;
      }
    }

    /** The "prompt" case of handleWSMessage. */
    method HandlePrompt(s: DiagnosisState, prompt: string, evidence: seq<string>, pid: string, env: Env)
      requires env.plan.Some? ==> |env.outcomes| == |env.plan.value.commands|
      modifies this, s
      ensures var t := PromptTurn(classify, old(s.Value()), old(known), prompt, evidence, pid, env);
              s.Value() == t.after && known == t.known && sent == old(sent) + t.events
    {
      if env.plan == None {
        SendWSEvent(Failed("", PlanFailed(env.planError)));
        return;
      }
      var plan := env.plan.value;
      StorePendingCommands(plan.commands);
      SendWSEvent(PlanSent(plan));
      s.Start(prompt, plan, evidence);
      var initialEvidenceCount := |s.evidence|;
      RunPlan(s, pid, plan.commands, env.outcomes);
      ghost var (after, events) := PlanTurn(classify, pid, Diagnosis(prompt, Some(plan), evidence, map[]), plan.commands, env.outcomes);
      assert sent == old(sent) + ([PlanSent(plan)] + events);
      if s.ShouldBuildReport() {
        SendWSEvent(Report(s.prompt, s.plan.value, s.evidence));
      }
      assert sent == old(sent) + ([PlanSent(plan)] + events + SessionReport(after));
      if PromptDone(plan, initialEvidenceCount, |s.evidence|, |s.pending|) {
        SendWSEvent(Done);
      }
    }

    method SendAdHocReport(command: string, evidence: string)
      modifies this`sent
      ensures sent == old(sent) + AdHocReport(command, evidence)
    {
      SendWSEvent(Report(command, Plan(command, "", []), [evidence]));
      SendWSEvent(Done);
    }

    /** The "command" case. */
    method HandleCommand(ghost s: DiagnosisState, command: string, pid: string, env: Env)
      modifies this`sent
      ensures var t := CommandTurn(classify, s.Value(), known, command, pid, env);
              s.Value() == t.after && known == t.known && sent == old(sent) + t.events
    {
      var evidence := ExecuteWSCommand(pid, command, env.outcome);
      if evidence.Some? {
        SendAdHocReport(command, evidence.value);
      }
    }

    /** What follows a confirm that has resolved a pending command. */
    method AfterResolved(s: DiagnosisState, commandEvidence: string)
      modifies this`sent, s
      ensures s.Value() == WithEvidence(old(s.Value()), commandEvidence)
      ensures sent == old(sent) + if ShouldReport(s.Value()) then SessionReport(s.Value()) + [Done] else []
    {
      s.AddEvidence(commandEvidence);
      if s.ShouldBuildReport() {
        SendWSEvent(Report(s.prompt, s.plan.value, s.evidence));
        SendWSEvent(Done);
      }
    }

    /** The "confirm" case, for the text that is executed. */
    method HandleConfirm(s: DiagnosisState, id: string, command: string, env: Env)
      modifies this`sent, s
      ensures var t := ConfirmTurn(old(s.Value()), known, id, command, env);
              s.Value() == t.after && known == t.known && sent == old(sent) + t.events
    {
      SendWSEvent(Executed(command));
      if env.outcome.error != None {
        SendWSEvent(Failed(command, ExecFailed(env.outcome.error.value)));
        return;
      }
      SendWSEvent(CommandResult(command, env.outcome.result));
      ghost var ran := [Executed(command), CommandResult(command, env.outcome.result)];
      assert sent == old(sent) + ran;
      var commandEvidence := FormatEvidence(command, env.outcome.result);
      var resolved := s.ResolvePending(id, command, env.order);
      if resolved {
        AfterResolved(s, commandEvidence);
        assert ShouldReport(s.Value()) ==> sent == old(sent) + (ran + SessionReport(s.Value()) + [Done]);
        return;
      }
      SendAdHocReport(command, commandEvidence);
      assert sent == old(sent) + (ran + AdHocReport(command, commandEvidence));
    }

    /** The "skip_confirm" case. */
    method HandleSkip(s: DiagnosisState, id: string, command: string, env: Env)
      modifies this`sent, s
      ensures var t := SkipTurn(old(s.Value()), known, id, command, env);
              s.Value() == t.after && known == t.known && sent == old(sent) + t.events
    {
      var resolved := s.ResolvePending(id, command, env.order);
      if resolved && s.ShouldBuildReport() {
        SendWSEvent(Report(s.prompt, s.plan.value, s.evidence));
        SendWSEvent(Done);
      } else if s.plan.Some? && |s.pending| == 0 {
        SendWSEvent(Done);
      }
    }

    method HandleWSMessage(s: DiagnosisState, msg: Message, env: Env)
      requires EnvFits(s.Value(), msg, env)
      modifies this, s
      ensures var t := Step(classify, old(s.Value()), old(known), msg, env);
              s.Value() == t.after && known == t.known && sent == old(sent) + t.events
    {
      match msg {
        case Prompt(prompt, evidence, pid) =>
          HandlePrompt(s, prompt, evidence, pid, env);
        case Command(command, pid) =>
          HandleCommand(s, command, pid, env);
        case Confirm(id, text) =>
          var command := text;
          if command == "" {
            command := if id in known then known[id].command else "";
          }
          HandleConfirm(s, id, command, env);
        case Skip(id, command) =>
          HandleSkip(s, id, command, env);
        case Unknown =>
          SendWSEvent(Failed("", UnknownMessage));
      }
    }
  }
}

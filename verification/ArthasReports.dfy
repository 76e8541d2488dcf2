// When a session sends reports and the final "done", step by step, and what it executes without being asked.

module ArthasReports {
  import opened Wrappers
  import opened GoStrings
  import opened ArthasPolicy
  import opened ArthasPlan
  import opened ArthasSession
  import opened ArthasRuns

  function Events(classify: string -> Decision, s: Session, input: Input): seq<Event>
    requires EnvFits(s.d, input.msg, input.env)
  {
    Step(classify, s.d, s.known, input.msg, input.env).events
  }

  predicate Quiet(events: seq<Event>) {
    forall e | e in events :: !e.Report? && !e.Done?
  }

  lemma EmptyEvidence(command: string, result: Option<ExecResult>)
    ensures FormatEvidence(command, result) == "" <==> command == "" && result.None?
  {
  }

  /** The events of a resolving step: first quiet ones, then the report and the done if the report is due, else a
      bare done if a skip has emptied pending. */
  function Closing(t: Diagnosis, msg: Message): seq<Event> {
    if ShouldReport(t) then [Report(t.prompt, t.plan.value, t.evidence), Done]
    else if msg.Skip? && |t.pending| == 0 then [Done]
    else []
  }

  lemma ResolvingEvents(classify: string -> Decision, s: Session, input: Input) returns (quiet: seq<Event>)
    requires EnvFits(s.d, input.msg, input.env) && Resolves(s, input) && s.d.plan.Some?
    ensures After(classify, s, input).d.plan.Some?
    ensures Events(classify, s, input) == quiet + Closing(After(classify, s, input).d, input.msg)
    ensures Quiet(quiet) && (input.msg.Skip? ==> quiet == [])
  {
    if input.msg.Confirm? {
      quiet := ConfirmClosing(s.d, s.known, input.msg, ConfirmedText(input.msg, s.known), input.env);
    } else {
      quiet := [];
      SkipClosing(s.d, s.known, input.msg, input.env);
      assert [] + Closing(After(classify, s, input).d, input.msg) == Closing(After(classify, s, input).d, input.msg);
    }
  }

  lemma ConfirmClosing(d: Diagnosis, known: Known, msg: Message, text: string, env: Env) returns (quiet: seq<Event>)
    requires msg.Confirm? && d.plan.Some? && env.outcome.error.None?
    requires ResolvedKey(d.pending, msg.id, text, env.order).Some?
    ensures var turn := ConfirmTurn(d, known, msg.id, text, env);
            turn.after.plan.Some? && turn.events == quiet + Closing(turn.after, msg)
    ensures Quiet(quiet)
  {
    quiet := [Executed(text), CommandResult(text, env.outcome.result)];
    var after := ConfirmTurn(d, known, msg.id, text, env).after;
    if ShouldReport(after) {
      assert quiet + SessionReport(after) + [Done] == quiet + Closing(after, msg);
    } else {
      assert quiet + Closing(after, msg) == quiet;
    }
  }

  lemma SkipClosing(d: Diagnosis, known: Known, msg: Message, env: Env)
    requires msg.Skip? && d.plan.Some? && ResolvedKey(d.pending, msg.id, msg.command, env.order).Some?
    ensures var turn := SkipTurn(d, known, msg.id, msg.command, env);
            turn.after.plan.Some? && turn.events == Closing(turn.after, msg)
  {
  }

  /** The step that resolves a pending command closes the round exactly when it empties pending: then the events
      end in the report over the whole evidence and one done, or, without any evidence, in a bare done after a
      skip and in nothing after a confirm. Before the end of the round there is neither report nor done. */
  lemma ResolvingStepClosesRound(classify: string -> Decision, s: Session, input: Input)
    requires EnvFits(s.d, input.msg, input.env) && Resolves(s, input) && s.d.plan.Some?
    ensures var t := After(classify, s, input).d;
            var events := Events(classify, s, input);
            var n := |events|;
            && (t.pending != map[] ==> Quiet(events))
            && (t.pending == map[] && t.evidence != [] ==>
                  t.plan.Some? && n >= 2 && Quiet(events[..n - 2])
                  && events[n - 2..] == [Report(t.prompt, t.plan.value, t.evidence), Done])
            && (t.pending == map[] && t.evidence == [] && input.msg.Skip? ==> events == [Done])
            && (t.pending == map[] && t.evidence == [] && input.msg.Confirm? ==> Quiet(events))
  {
    var quiet := ResolvingEvents(classify, s, input);
    var t := After(classify, s, input).d;
    ClosingShape(t, input.msg, quiet, Events(classify, s, input));
  }

  lemma ClosingShape(t: Diagnosis, msg: Message, quiet: seq<Event>, events: seq<Event>)
    requires t.plan.Some? && events == quiet + Closing(t, msg) && Quiet(quiet) && (msg.Skip? ==> quiet == [])
    ensures var n := |events|;
            && (t.pending != map[] ==> Quiet(events))
            && (t.pending == map[] && t.evidence != [] ==>
                  n >= 2 && Quiet(events[..n - 2]) && events[n - 2..] == [Report(t.prompt, t.plan.value, t.evidence), Done])
            && (t.pending == map[] && t.evidence == [] && msg.Skip? ==> events == [Done])
            && (t.pending == map[] && t.evidence == [] && msg.Confirm? ==> Quiet(events))
  {
    if t.pending == map[] && t.evidence != [] {
      assert events[..|events| - 2] == quiet;
    } else if t.pending != map[] || !msg.Skip? {
      assert events == quiet;
    }
  }

  /** With an executor that returns a result unless it reports an error: the step that empties pending ends in one
      done, its last event, with the report over the whole evidence right before it exactly when there is evidence, which
      there always is after a confirm; every other resolving step sends neither. */
  lemma EmptyingStepSendsOneDone(classify: string -> Decision, s: Session, input: Input) returns (quiet: seq<Event>)
    requires EnvFits(s.d, input.msg, input.env) && Resolves(s, input) && s.d.plan.Some?
    requires input.msg.Confirm? ==> Kept(input.env.outcome)
    ensures var t := After(classify, s, input).d;
            && Quiet(quiet) && t.plan.Some?
            && Events(classify, s, input) == quiet + (
                 if t.pending != map[] then []
                 else if t.evidence != [] then [Report(t.prompt, t.plan.value, t.evidence), Done]
                 else [Done])
            && (input.msg.Confirm? ==> t.evidence != [])
  {
    quiet := ResolvingEvents(classify, s, input);
    if input.msg.Confirm? {
      StepEvidence(classify, s, input);
      EmptyEvidence(ConfirmedText(input.msg, s.known), input.env.outcome.result);
    }
  }

  /** For any executor: a confirm that empties pending is silent exactly when there was no evidence before and an
      empty text came back with neither a result nor an error, which breaks the executor's contract. */
  lemma ConfirmLeavesClientWaiting(classify: string -> Decision, s: Session, input: Input)
    requires EnvFits(s.d, input.msg, input.env) && Resolves(s, input) && s.d.plan.Some? && input.msg.Confirm?
    requires After(classify, s, input).d.pending == map[]
    ensures Done !in Events(classify, s, input)
       <==> s.d.evidence == [] && ConfirmedText(input.msg, s.known) == "" && input.env.outcome.result.None?
    ensures Done !in Events(classify, s, input) ==> !Kept(input.env.outcome)
  {
    ResolvingStepClosesRound(classify, s, input);
    StepEvidence(classify, s, input);
    EmptyEvidence(ConfirmedText(input.msg, s.known), input.env.outcome.result);
    var events := Events(classify, s, input);
    if After(classify, s, input).d.evidence != [] {
      assert events[|events| - 2..][1] == Done;
    }
  }

  /** The report of an ad-hoc execution: under the text that was executed, over its one result. */
  predicate IsAdHoc(e: Event, s: Session, input: Input) {
    && (input.msg.Command? || input.msg.Confirm?)
    && var text := if input.msg.Command? then input.msg.command else ConfirmedText(input.msg, s.known);
       e == Report(text, Plan(text, "", []), [FormatEvidence(text, input.env.outcome.result)])
  }

  lemma RepliesAreQuiet(classify: string -> Decision, pid: string, command: string, o: Outcome)
    ensures Quiet(ExecuteReply(classify, pid, command, o).events)
  {
  }

  /** The events of a prompt step: quiet ones, then the report if due, then the done if due. */
  lemma PromptEvents(classify: string -> Decision, s: Session, input: Input) returns (quiet: seq<Event>, done: seq<Event>)
    requires EnvFits(s.d, input.msg, input.env) && IsNewRound(input)
    ensures var t := After(classify, s, input).d;
            && Events(classify, s, input) == quiet + SessionReport(t) + done
            && Quiet(quiet)
            && done == (if PromptDone(input.env.plan.value, |input.msg.evidence|, |t.evidence|, |t.pending|) then [Done] else [])
  {
    var start := Diagnosis(input.msg.prompt, input.env.plan, input.msg.evidence, map[]);
    var commands := input.env.plan.value.commands;
    PlanTurnEffect(classify, input.msg.pid, start, commands, input.env.outcomes);
    quiet := [PlanSent(input.env.plan.value)] + PlanTurn(classify, input.msg.pid, start, commands, input.env.outcomes).1;
    var t := After(classify, s, input).d;
    done := if PromptDone(input.env.plan.value, |input.msg.evidence|, |t.evidence|, |t.pending|) then [Done] else [];
  }

  /** A report over the session's own, non-empty evidence, at a moment when nothing is pending. */
  predicate IsSessionReport(e: Event, t: Diagnosis) {
    && t.pending == map[] && t.evidence != [] && t.plan.Some?
    && e == Report(t.prompt, t.plan.value, t.evidence)
  }

  /** In every step of every kind, each report is an ad-hoc one, or it is over the session's evidence, which is
      not empty, and nothing is pending any more. */
  lemma SessionReportsOnlyWhenIdle(classify: string -> Decision, s: Session, input: Input)
    requires EnvFits(s.d, input.msg, input.env)
    ensures forall e | e in Events(classify, s, input) && e.Report? ::
      IsAdHoc(e, s, input) || IsSessionReport(e, After(classify, s, input).d)
  {
    if IsNewRound(input) {
      PromptReports(classify, s, input);
    } else if input.msg.Command? {
      CommandReports(classify, s, input);
    } else if input.msg.Confirm? {
      ConfirmReports(classify, s, input);
    } else if input.msg.Skip? {
      SkipReports(classify, s, input);
    } else {
      assert Quiet(Events(classify, s, input));
    }
  }

  lemma PromptReports(classify: string -> Decision, s: Session, input: Input)
    requires EnvFits(s.d, input.msg, input.env) && IsNewRound(input)
    ensures forall e | e in Events(classify, s, input) && e.Report? :: IsSessionReport(e, After(classify, s, input).d)
  {
    var quiet, done := PromptEvents(classify, s, input);
  }

  lemma CommandReports(classify: string -> Decision, s: Session, input: Input)
    requires EnvFits(s.d, input.msg, input.env) && input.msg.Command?
    ensures forall e | e in Events(classify, s, input) && e.Report? :: IsAdHoc(e, s, input)
  {
    RepliesAreQuiet(classify, input.msg.pid, input.msg.command, input.env.outcome);
  }

  lemma SkipReports(classify: string -> Decision, s: Session, input: Input)
    requires EnvFits(s.d, input.msg, input.env) && input.msg.Skip?
    ensures forall e | e in Events(classify, s, input) && e.Report? :: IsSessionReport(e, After(classify, s, input).d)
  {
  }

  lemma ConfirmReports(classify: string -> Decision, s: Session, input: Input)
    requires EnvFits(s.d, input.msg, input.env) && input.msg.Confirm?
    ensures forall e | e in Events(classify, s, input) && e.Report? ::
      IsAdHoc(e, s, input) || IsSessionReport(e, After(classify, s, input).d)
  {
  }

  /** None of these commands can be addressed: they have neither an identifier nor a text. */
  predicate Unaddressable(commands: seq<PlannedCommand>) {
    forall c | c in commands :: c.id == "" && c.command == ""
  }

  lemma {:induction false} AddAllEmpty(pending: map<string, PlannedCommand>, commands: seq<PlannedCommand>)
    ensures |AddAll(pending, commands)| == 0 <==> pending == map[] && Unaddressable(commands)
    decreases |commands|
  {
    if commands != [] {
      AddAllEmpty(Remember(pending, commands[0]), commands[1..]);
      assert Unaddressable(commands) <==> KeyOf(commands[0]) == "" && Unaddressable(commands[1..]);
    }
  }

  /** Exactly when the prompt step ends the round itself. Nothing waits when every command that was held back, if any, is
      blank in identifier and text. */
  lemma PromptVerdict(classify: string -> Decision, s: Session, input: Input)
    requires EnvFits(s.d, input.msg, input.env) && IsNewRound(input)
    ensures var commands := input.env.plan.value.commands;
            var auto := AutoEvidence(classify, input.msg.pid, commands, input.env.outcomes);
            var events := Events(classify, s, input);
            && (Done in events <==> commands == [] || (Unaddressable(HeldBack(classify, commands)) && auto != []))
            && ((exists e :: e in events && e.Report?)
                  <==> Unaddressable(HeldBack(classify, commands)) && input.msg.evidence + auto != [])
  {
    var commands := input.env.plan.value.commands;
    var start := Diagnosis(input.msg.prompt, input.env.plan, input.msg.evidence, map[]);
    PlanTurnEffect(classify, input.msg.pid, start, commands, input.env.outcomes);
    PlanTurnPending(classify, input.msg.pid, start, commands, input.env.outcomes);
    AddAllEmpty(map[], HeldBack(classify, commands));
    var t := After(classify, s, input).d;
    var quiet, done := PromptEvents(classify, s, input);
    if ShouldReport(t) {
      assert SessionReport(t)[0] in Events(classify, s, input);
    }
  }

  /** A round whose only command fails is never closed by the server: with no initial evidence the client gets
      neither a report nor a done, and with initial evidence a report but no done. */
  lemma FailedRoundIsNotClosed(classify: string -> Decision, s: Session, input: Input, command: PlannedCommand)
    requires EnvFits(s.d, input.msg, input.env) && IsNewRound(input)
    requires input.env.plan.value.commands == [command]
    requires classify(command.command).autoExecutable && input.env.outcomes[0].error.Some?
    ensures Done !in Events(classify, s, input)
    ensures (exists e :: e in Events(classify, s, input) && e.Report?) <==> input.msg.evidence != []
  {
    PromptVerdict(classify, s, input);
    var auto := AutoEvidence(classify, input.msg.pid, [command], input.env.outcomes);
    assert [command][1..] == [] && auto == [];
    assert HeldBack(classify, [command]) == [];
    assert input.msg.evidence + auto == input.msg.evidence;
  }

  // ---------------------------------------------------------------- what runs unattended

  predicate RunsOnlyAutomatic(classify: string -> Decision, events: seq<Event>) {
    forall e | e in events && e.Executed? :: classify(e.command).autoExecutable
  }

  lemma {:induction false} PlanRunsOnlyAutomatic(classify: string -> Decision, pid: string, d: Diagnosis,
                                                 commands: seq<PlannedCommand>, outcomes: seq<Outcome>)
    requires |outcomes| == |commands|
    ensures RunsOnlyAutomatic(classify, PlanTurn(classify, pid, d, commands, outcomes).1)
    decreases |commands|
  {
    if commands != [] {
      var d1 := PlanStep(classify, pid, d, commands[0], outcomes[0]).0;
      PlanRunsOnlyAutomatic(classify, pid, d1, commands[1..], outcomes[1..]);
    }
  }

  lemma StepRunsOnlyAutomatic(classify: string -> Decision, s: Session, input: Input)
    requires EnvFits(s.d, input.msg, input.env) && !input.msg.Confirm?
    ensures RunsOnlyAutomatic(classify, Events(classify, s, input))
  {
    if IsNewRound(input) {
      var start := Diagnosis(input.msg.prompt, input.env.plan, input.msg.evidence, map[]);
      PlanRunsOnlyAutomatic(classify, input.msg.pid, start, input.env.plan.value.commands, input.env.outcomes);
    } else if input.msg.Command? {
      ReplyRunsOnlyAutomatic(classify, input.msg.pid, input.msg.command, input.env.outcome);
    } else if input.msg.Skip? {
      SkipExecutesNothing(s.d, s.known, input.msg, input.env);
    }
  }

  lemma ReplyRunsOnlyAutomatic(classify: string -> Decision, pid: string, command: string, o: Outcome)
    ensures RunsOnlyAutomatic(classify, ExecuteReply(classify, pid, command, o).events)
  {
  }

  lemma SkipExecutesNothing(d: Diagnosis, known: Known, msg: Message, env: Env)
    requires msg.Skip?
    ensures forall e | e in SkipTurn(d, known, msg.id, msg.command, env).events :: !e.Executed?
  {
  }

  /** The command starts with one of the nine words of the whitelist, in any case. */
  predicate StartsHarmlessly(command: string) {
    Fields(command) != []
    && ToLower(Fields(command)[0]) in {"version", "help", "sysprop", "sysenv", "jvm", "dashboard", "thread", "memory", "classloader"}
  }

  /** In every state and for every message: what is executed without a confirm is low-risk by its own tokens, starts with
      one of nine words, and only runs while the policy switch is on; a confirm executes one command, the one it names. */
  lemma UnattendedMeansLowRisk(p: Policy, s: Session, input: Input)
    requires EnvFits(s.d, input.msg, input.env)
    ensures forall e | e in Events(Classifier(p), s, input) && e.Executed? ::
      || (p.autoExecLowRisk && RiskOf(Fields(e.command)) == Low && StartsHarmlessly(e.command))
      || (input.msg.Confirm? && e.command == ConfirmedText(input.msg, s.known))
    ensures input.msg.Confirm? ==> ExecutedIn(Events(Classifier(p), s, input)) == [ConfirmedText(input.msg, s.known)]
  {
    if input.msg.Confirm? {
      ConfirmExecutesOne(Classifier(p), s, input);
    } else {
      StepRunsOnlyAutomatic(Classifier(p), s, input);
      forall e | e in Events(Classifier(p), s, input) && e.Executed?
        ensures p.autoExecLowRisk && RiskOf(Fields(e.command)) == Low && StartsHarmlessly(e.command)
      {
        DecisionFollowsTokens(p, e.command);
        DecisionByFirstWord(p, e.command);
      }
    }
  }

  lemma {:induction false} NothingExecuted(events: seq<Event>)
    requires forall e | e in events :: !e.Executed?
    ensures ExecutedIn(events) == []
  {
    if events != [] {
      NothingExecuted(events[1..]);
    }
  }

  lemma ConfirmExecutesOne(classify: string -> Decision, s: Session, input: Input)
    requires EnvFits(s.d, input.msg, input.env) && input.msg.Confirm?
    ensures forall e | e in Events(classify, s, input) && e.Executed? :: e.command == ConfirmedText(input.msg, s.known)
    ensures ExecutedIn(Events(classify, s, input)) == [ConfirmedText(input.msg, s.known)]
  {
    var events := Events(classify, s, input);
    assert events[0] == Executed(ConfirmedText(input.msg, s.known));
    assert forall e | e in events[1..] :: !e.Executed?;
    NothingExecuted(events[1..]);
  }

  // ---------------------------------------------------------------- which command a confirm takes

  /** A confirm executes a text and takes one command out of pending. The two are the same exactly when the request has no
      identifier, or one that is not pending, or the identified command has the executed text. */
  lemma ConfirmTakesItsOwnText(s: Session, input: Input)
    requires EnvFits(s.d, input.msg, input.env) && input.msg.Confirm? && Resolves(s, input)
    ensures var id, text := input.msg.id, ConfirmedText(input.msg, s.known);
            (s.d.pending[Addressed(s, input).value].command == text) <==> (id == "" || id !in s.d.pending || s.d.pending[id].command == text)
  {
  }

  /** Otherwise the text that runs is not the command that counts as done, and its result becomes evidence of the round. */
  lemma ConfirmCanTakeAnotherCommand(classify: string -> Decision, s: Session, input: Input)
    requires EnvFits(s.d, input.msg, input.env) && input.msg.Confirm? && input.env.outcome.error.None?
    requires input.msg.command != "" && input.msg.id != "" && input.msg.id in s.d.pending
    requires s.d.pending[input.msg.id].command != input.msg.command
    ensures var t := After(classify, s, input).d;
            && ExecutedIn(Events(classify, s, input)) == [input.msg.command]
            && t.pending == s.d.pending - {input.msg.id}
            && t.evidence == s.d.evidence + [FormatEvidence(input.msg.command, input.env.outcome.result)]
  {
    ConfirmExecutesOne(classify, s, input);
    StepEvidence(classify, s, input);
    PendingShrinksByOne(classify, s, input);
    EmptyEvidence(input.msg.command, input.env.outcome.result);
  }

  /** Confirming `cmd-1`, which is `heapdump`, with the text `jvm` is such a request. */
  lemma HeapdumpIsTakenByJvm(s: Session, input: Input)
    requires input.msg == Confirm("cmd-1", "jvm") && "cmd-1" in s.d.pending && s.d.pending["cmd-1"].command == "heapdump"
    requires EnvFits(s.d, input.msg, input.env) && input.env.outcome.error.None?
    ensures Addressed(s, input) == Some("cmd-1") && s.d.pending["cmd-1"].command != ConfirmedText(input.msg, s.known)
  {
  }
}

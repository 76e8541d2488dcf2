// What a session sends over a whole round: the reports and the dones, counted.

module ArthasRounds {
  import opened ArthasPolicy
  import opened ArthasSession
  import opened ArthasRuns
  import opened ArthasReports

  /** Everything sent over a run. */
  function Trace(classify: string -> Decision, s: Session, inputs: seq<Input>): seq<Event>
    requires Runs(classify, s, inputs)
    decreases |inputs|
  {
    if inputs == [] then []
    else Events(classify, s, inputs[0]) + Trace(classify, After(classify, s, inputs[0]), inputs[1..])
  }

  predicate IsReport(e: Event) {
    e.Report?
  }

  predicate IsDone(e: Event) {
    e.Done?
  }

  function Tally(events: seq<Event>, kind: Event -> bool): nat {
    if events == [] then 0 else (if kind(events[0]) then 1 else 0) + Tally(events[1..], kind)
  }

  lemma {:induction false} TallyConcat(a: seq<Event>, b: seq<Event>, kind: Event -> bool)
    ensures Tally(a + b, kind) == Tally(a, kind) + Tally(b, kind)
  {
    if a == [] {
      assert a + b == b;
    } else {
      assert (a + b)[0] == a[0] && (a + b)[1..] == a[1..] + b;
      TallyConcat(a[1..], b, kind);
    }
  }

  lemma {:induction false} QuietTally(events: seq<Event>)
    requires Quiet(events)
    ensures Tally(events, IsReport) == 0 && Tally(events, IsDone) == 0
  {
    if events != [] {
      assert Quiet(events[1..]) && !events[0].Report? && !events[0].Done?;
      QuietTally(events[1..]);
    }
  }

  lemma TallyOfDone()
    ensures Tally([Done], IsReport) == 0 && Tally([Done], IsDone) == 1
  {
    assert [Done][1..] == [];
  }

  lemma TallyOfReport(report: Event)
    requires report.Report?
    ensures Tally([report, Done], IsReport) == 1 && Tally([report, Done], IsDone) == 1
  {
    assert [report, Done][1..] == [Done];
    TallyOfDone();
  }

  // ---------------------------------------------------------------- one step

  /** The input runs a command that is not part of the round: it gets a report and a done of its own. */
  predicate RunsAdHoc(classify: string -> Decision, s: Session, input: Input) {
    match input.msg
    case Command(command, pid) => ExecuteReply(classify, pid, command, input.env.outcome).evidence.Some?
    case Confirm(_, _) => input.env.outcome.error.None? && !Resolves(s, input)
    case _ => false
  }

  /** A skip that finds nothing to skip, with nothing pending: it gets a bare done. */
  predicate SkipsNothing(s: Session, input: Input) {
    input.msg.Skip? && !Resolves(s, input) && s.d.plan.Some? && s.d.pending == map[]
  }

  /** The step takes the last command out of pending. */
  predicate Closes(classify: string -> Decision, s: Session, input: Input)
    requires EnvFits(s.d, input.msg, input.env)
  {
    Resolves(s, input) && After(classify, s, input).d.pending == map[]
  }

  function One(b: bool): nat {
    if b then 1 else 0
  }

  lemma ResolvingTally(classify: string -> Decision, s: Session, input: Input)
    requires EnvFits(s.d, input.msg, input.env) && Resolves(s, input) && s.d.plan.Some? && Kept(input.env.outcome)
    ensures Tally(Events(classify, s, input), IsReport) == One(Closes(classify, s, input) && After(classify, s, input).d.evidence != [])
    ensures Tally(Events(classify, s, input), IsDone) == One(Closes(classify, s, input))
  {
    var quiet := EmptyingStepSendsOneDone(classify, s, input);
    var t := After(classify, s, input).d;
    QuietTally(quiet);
    if t.pending == map[] {
      var closing := if t.evidence != [] then [Report(t.prompt, t.plan.value, t.evidence), Done] else [Done];
      TallyConcat(quiet, closing, IsReport);
      TallyConcat(quiet, closing, IsDone);
      TallyOfDone();
      TallyOfReport(Report(t.prompt, t.plan.value, t.evidence));
    } else {
      assert quiet + [] == quiet;
    }
  }

  lemma AdHocTally(quiet: seq<Event>, command: string, evidence: string)
    requires Quiet(quiet)
    ensures Tally(quiet + AdHocReport(command, evidence), IsReport) == 1 && Tally(quiet + AdHocReport(command, evidence), IsDone) == 1
  {
    QuietTally(quiet);
    TallyConcat(quiet, AdHocReport(command, evidence), IsReport);
    TallyConcat(quiet, AdHocReport(command, evidence), IsDone);
    TallyOfReport(AdHocReport(command, evidence)[0]);
  }

  lemma CommandTally(classify: string -> Decision, s: Session, input: Input)
    requires EnvFits(s.d, input.msg, input.env) && input.msg.Command?
    ensures Tally(Events(classify, s, input), IsReport) == One(RunsAdHoc(classify, s, input))
    ensures Tally(Events(classify, s, input), IsDone) == One(RunsAdHoc(classify, s, input))
  {
    var r := ExecuteReply(classify, input.msg.pid, input.msg.command, input.env.outcome);
    RepliesAreQuiet(classify, input.msg.pid, input.msg.command, input.env.outcome);
    if r.evidence.Some? {
      AdHocTally(r.events, input.msg.command, r.evidence.value);
    } else {
      assert r.events + [] == r.events;
      QuietTally(r.events);
    }
  }

  lemma LooseConfirmTally(classify: string -> Decision, s: Session, input: Input)
    requires EnvFits(s.d, input.msg, input.env) && input.msg.Confirm? && !Resolves(s, input)
    ensures Tally(Events(classify, s, input), IsReport) == One(RunsAdHoc(classify, s, input))
    ensures Tally(Events(classify, s, input), IsDone) == One(RunsAdHoc(classify, s, input))
  {
    var text, o := ConfirmedText(input.msg, s.known), input.env.outcome;
    if o.error.None? {
      AdHocTally([Executed(text), CommandResult(text, o.result)], text, FormatEvidence(text, o.result));
    } else {
      QuietTally([Executed(text), Failed(text, ExecFailed(o.error.value))]);
    }
  }

  lemma StepTally(classify: string -> Decision, s: Session, input: Input)
    requires EnvFits(s.d, input.msg, input.env) && !IsNewRound(input) && s.d.plan.Some? && Kept(input.env.outcome)
    ensures Tally(Events(classify, s, input), IsReport)
         == One(RunsAdHoc(classify, s, input)) + One(Closes(classify, s, input) && After(classify, s, input).d.evidence != [])
    ensures Tally(Events(classify, s, input), IsDone)
         == One(RunsAdHoc(classify, s, input)) + One(SkipsNothing(s, input)) + One(Closes(classify, s, input))
  {
    if Resolves(s, input) {
      ResolvingTally(classify, s, input);
    } else if input.msg.Command? {
      CommandTally(classify, s, input);
    } else if input.msg.Confirm? {
      LooseConfirmTally(classify, s, input);
    } else if input.msg.Skip? {
      LooseSkip(classify, s, input);
      TallyOfDone();
    } else {
      QuietTally(Events(classify, s, input));
    }
  }

  lemma LooseSkip(classify: string -> Decision, s: Session, input: Input)
    requires EnvFits(s.d, input.msg, input.env) && input.msg.Skip? && !Resolves(s, input)
    ensures Events(classify, s, input) == if SkipsNothing(s, input) then [Done] else []
  {
  }

  // ---------------------------------------------------------------- the rest of a round

  function AdHocs(classify: string -> Decision, s: Session, inputs: seq<Input>): nat
    requires Runs(classify, s, inputs)
    decreases |inputs|
  {
    if inputs == [] then 0
    else One(RunsAdHoc(classify, s, inputs[0])) + AdHocs(classify, After(classify, s, inputs[0]), inputs[1..])
  }

  function IdleSkips(classify: string -> Decision, s: Session, inputs: seq<Input>): nat
    requires Runs(classify, s, inputs)
    decreases |inputs|
  {
    if inputs == [] then 0
    else One(SkipsNothing(s, inputs[0])) + IdleSkips(classify, After(classify, s, inputs[0]), inputs[1..])
  }

  predicate AllKept(inputs: seq<Input>) {
    forall i | 0 <= i < |inputs| :: Kept(inputs[i].env.outcome)
  }

  lemma NothingPendingStaysSo(classify: string -> Decision, s: Session, inputs: seq<Input>)
    requires Runs(classify, s, inputs) && SameRound(inputs) && s.d.pending == map[]
    ensures Run(classify, s, inputs).d.pending == map[] && Run(classify, s, inputs).d.evidence == s.d.evidence
  {
    RoundConserves(classify, s, inputs);
  }

  /** What the messages after the prompt send: one report and one done for each ad-hoc execution, one done for each
      skip with nothing to skip, and, if they resolve the last pending command, once a done and with it a report exactly
      when there is evidence. */
  lemma {:induction false} RoundTally(classify: string -> Decision, s: Session, inputs: seq<Input>)
    requires Runs(classify, s, inputs) && SameRound(inputs) && AllKept(inputs) && s.d.plan.Some?
    ensures var t, trace := Run(classify, s, inputs).d, Trace(classify, s, inputs);
            var closed := s.d.pending != map[] && t.pending == map[];
            && Tally(trace, IsReport) == AdHocs(classify, s, inputs) + One(closed && t.evidence != [])
            && Tally(trace, IsDone) == AdHocs(classify, s, inputs) + IdleSkips(classify, s, inputs) + One(closed)
    decreases |inputs|
  {
    if inputs != [] {
      var m := After(classify, s, inputs[0]);
      StepTally(classify, s, inputs[0]);
      StepTakes(classify, s, inputs[0]);
      RoundTally(classify, m, inputs[1..]);
      TallyConcat(Events(classify, s, inputs[0]), Trace(classify, m, inputs[1..]), IsReport);
      TallyConcat(Events(classify, s, inputs[0]), Trace(classify, m, inputs[1..]), IsDone);
      if m.d.pending == map[] {
        NothingPendingStaysSo(classify, m, inputs[1..]);
      }
    }
  }

  // ---------------------------------------------------------------- the whole round

  lemma PromptTally(classify: string -> Decision, s: Session, input: Input)
    requires EnvFits(s.d, input.msg, input.env) && IsNewRound(input)
    ensures var t := After(classify, s, input).d;
            && t.plan.Some?
            && Tally(Events(classify, s, input), IsReport) == One(t.pending == map[] && t.evidence != [])
            && Tally(Events(classify, s, input), IsDone)
               == One(PromptDone(input.env.plan.value, |input.msg.evidence|, |t.evidence|, |t.pending|))
  {
    var t := After(classify, s, input).d;
    var quiet, done := PromptEvents(classify, s, input);
    PlanIsSet(classify, s, input);
    QuietTally(quiet);
    var report := SessionReport(t);
    TallyConcat(quiet, report, IsReport);
    TallyConcat(quiet, report, IsDone);
    TallyConcat(quiet + report, done, IsReport);
    TallyConcat(quiet + report, done, IsDone);
    TallyOfDone();
    if report != [] {
      assert report[1..] == [];
    }
  }

  lemma PlanIsSet(classify: string -> Decision, s: Session, input: Input)
    requires EnvFits(s.d, input.msg, input.env) && IsNewRound(input)
    ensures After(classify, s, input).d.plan == input.env.plan
  {
    PlanTurnEffect(classify, input.msg.pid, Diagnosis(input.msg.prompt, input.env.plan, input.msg.evidence, map[]),
                   input.env.plan.value.commands, input.env.outcomes);
  }

  /** A whole round, from its prompt on: besides those of ad-hoc executions there is at most one report, namely one
      exactly when everything held back has been resolved and there is evidence; and besides those of ad-hoc executions
      and of skips with nothing to skip there is at most one done: the prompt's, when it holds nothing back, or that of
      the step which resolves the last command. */
  lemma WholeRoundTally(classify: string -> Decision, s: Session, prompt: Input, after: seq<Input>)
    requires Runs(classify, s, [prompt] + after) && IsNewRound(prompt) && SameRound(after) && AllKept(after)
    ensures EnvFits(s.d, prompt.msg, prompt.env) && Runs(classify, After(classify, s, prompt), after)
    ensures var m, t := After(classify, s, prompt), Run(classify, s, [prompt] + after).d;
            var trace := Trace(classify, s, [prompt] + after);
            var own := PromptDone(prompt.env.plan.value, |prompt.msg.evidence|, |m.d.evidence|, |m.d.pending|);
            && Tally(trace, IsReport) == AdHocs(classify, m, after) + One(t.pending == map[] && t.evidence != [])
            && Tally(trace, IsDone) == AdHocs(classify, m, after) + IdleSkips(classify, m, after)
                                     + One(own) + One(m.d.pending != map[] && t.pending == map[])
            && (own ==> m.d.pending == map[])
  {
    assert ([prompt] + after)[0] == prompt && ([prompt] + after)[1..] == after;
    var m := After(classify, s, prompt);
    PromptTally(classify, s, prompt);
    RoundTally(classify, m, after);
    TallyConcat(Events(classify, s, prompt), Trace(classify, m, after), IsReport);
    TallyConcat(Events(classify, s, prompt), Trace(classify, m, after), IsDone);
    if m.d.pending == map[] {
      NothingPendingStaysSo(classify, m, after);
    }
  }
}

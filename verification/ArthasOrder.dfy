// What Go's map iteration order can and cannot change in a round of confirms and skips.

module ArthasOrder {
  import opened Wrappers
  import opened ArthasPolicy
  import opened ArthasPlan
  import opened ArthasSession
  import opened ArthasRuns
  import opened ArthasReports
  import opened ArthasRounds

  /** How many pending commands have this text. */
  function Texts(p: map<string, PlannedCommand>, text: string): nat {
    |set k | k in p && p[k].command == text|
  }

  /** The same multiset of command texts. */
  ghost predicate SameTexts(p: map<string, PlannedCommand>, q: map<string, PlannedCommand>) {
    forall text :: Texts(p, text) == Texts(q, text)
  }

  lemma TextsWithout(p: map<string, PlannedCommand>, k: string, text: string)
    requires k in p
    ensures Texts(p - {k}, text) == Texts(p, text) - if p[k].command == text then 1 else 0
  {
    var before := set x | x in p && p[x].command == text;
    var after := set x | x in p - {k} && (p - {k})[x].command == text;
    if p[k].command == text {
      assert before == after + {k};
    } else {
      assert before == after;
    }
  }

  lemma TextsPositive(p: map<string, PlannedCommand>, text: string)
    ensures Texts(p, text) > 0 <==> exists k :: k in p && p[k].command == text
  {
    var keys := set k | k in p && p[k].command == text;
    if k :| k in p && p[k].command == text {
      assert k in keys;
    }
    if |keys| > 0 {
      var k :| k in keys;
      assert k in p;
    }
  }

  /** The request names its command by text; or its identifier and its text agree about a command of the plan; or
      no other command of the plan has the text of the identified one. */
  predicate Agrees(plan: map<string, PlannedCommand>, id: string, text: string) {
    || id == "" || id !in plan || plan[id].command == text
    || (forall k | k in plan && plan[k].command == plan[id].command :: k == id)
  }

  function Remaining(p: map<string, PlannedCommand>, k: Option<string>): map<string, PlannedCommand> {
    if k.Some? then p - {k.value} else p
  }

  /** By text, a request takes one command with that text, and fails only if there is none. */
  lemma MatchTakesText(p: map<string, PlannedCommand>, text: string, order: seq<string>)
    requires Visits(order, p)
    ensures var k := FirstMatch(order, p, text);
            && (k.Some? <==> Texts(p, text) > 0)
            && (k.Some? ==> p[k.value].command == text)
  {
    TextsPositive(p, text);
  }

  lemma SameTextRemoved(p: map<string, PlannedCommand>, q: map<string, PlannedCommand>, kp: string, kq: string)
    requires SameTexts(p, q) && kp in p && kq in q && p[kp].command == q[kq].command
    ensures SameTexts(p - {kp}, q - {kq})
  {
    forall text ensures Texts(p - {kp}, text) == Texts(q - {kq}, text) {
      TextsWithout(p, kp, text);
      TextsWithout(q, kq, text);
    }
  }

  /** A command whose text no other command of the plan has is pending in both sessions or in neither. */
  lemma OnlyOneWithText(plan: map<string, PlannedCommand>, p: map<string, PlannedCommand>, id: string)
    requires Submap(p, plan) && id in plan
    requires forall k | k in plan && plan[k].command == plan[id].command :: k == id
    ensures id in p <==> Texts(p, plan[id].command) > 0
  {
    TextsPositive(p, plan[id].command);
  }

  /** Whichever key Go visits first: two sessions with the same pending texts stay with the same pending texts,
      and the request succeeds in both or in neither. */
  lemma ResolveIsConfluent(plan: map<string, PlannedCommand>, p: map<string, PlannedCommand>, q: map<string, PlannedCommand>,
                           id: string, text: string, orderP: seq<string>, orderQ: seq<string>)
    requires Submap(p, plan) && Submap(q, plan) && SameTexts(p, q)
    requires Visits(orderP, p) && Visits(orderQ, q) && Agrees(plan, id, text)
    ensures var kp, kq := ResolvedKey(p, id, text, orderP), ResolvedKey(q, id, text, orderQ);
            && (kp.Some? <==> kq.Some?)
            && SameTexts(Remaining(p, kp), Remaining(q, kq))
  {
    MatchTakesText(p, text, orderP);
    MatchTakesText(q, text, orderQ);
    var kp, kq := ResolvedKey(p, id, text, orderP), ResolvedKey(q, id, text, orderQ);
    if id in plan && plan[id].command != text && id != "" {
      OnlyOneWithText(plan, p, id);
      OnlyOneWithText(plan, q, id);
    } else {
      TextsPositive(p, text);
      TextsPositive(q, text);
    }
    if kp.Some? {
      SameTextRemoved(p, q, kp.value, kq.value);
    }
  }

  /** Resolving this request never depends on the iteration order, whatever is pending of the plan. */
  ghost predicate Confluent(plan: map<string, PlannedCommand>, id: string, text: string) {
    forall p, q, orderP, orderQ ::
      Submap(p, plan) && Submap(q, plan) && SameTexts(p, q) && Visits(orderP, p) && Visits(orderQ, q) ==>
        (ResolvedKey(p, id, text, orderP).Some? <==> ResolvedKey(q, id, text, orderQ).Some?)
        && SameTexts(Remaining(p, ResolvedKey(p, id, text, orderP)), Remaining(q, ResolvedKey(q, id, text, orderQ)))
  }

  lemma TextsOfOne(k: string, c: PlannedCommand, text: string)
    ensures Texts(map[k := c], text) == if c.command == text then 1 else 0
  {
    var p := map[k := c];
    assert (set x | x in p && p[x].command == text) == if c.command == text then {k} else {};
  }

  /** The condition is exact: for a request that does not agree there are two states with the same pending texts, in
      one of which it succeeds while it fails in the other. */
  lemma AgreementIsExact(plan: map<string, PlannedCommand>, id: string, text: string)
    ensures Confluent(plan, id, text) <==> Agrees(plan, id, text)
  {
    if Agrees(plan, id, text) {
      forall p, q, orderP, orderQ
        | Submap(p, plan) && Submap(q, plan) && SameTexts(p, q) && Visits(orderP, p) && Visits(orderQ, q)
        ensures (ResolvedKey(p, id, text, orderP).Some? <==> ResolvedKey(q, id, text, orderQ).Some?)
          && SameTexts(Remaining(p, ResolvedKey(p, id, text, orderP)), Remaining(q, ResolvedKey(q, id, text, orderQ)))
      {
        ResolveIsConfluent(plan, p, q, id, text, orderP, orderQ);
      }
    } else {
      var other :| other in plan && plan[other].command == plan[id].command && other != id;
      var p, q := map[id := plan[id]], map[other := plan[other]];
      forall t ensures Texts(p, t) == Texts(q, t) {
        TextsOfOne(id, plan[id], t);
        TextsOfOne(other, plan[other], t);
      }
      assert Submap(p, plan) && Submap(q, plan) && Visits([id], p) && Visits([other], q);
      assert ResolvedKey(p, id, text, [id]).Some?;
      assert [other][1..] == [];
      assert ResolvedKey(q, id, text, [other]).None?;
    }
  }

  lemma SameTextsSameEmptiness(p: map<string, PlannedCommand>, q: map<string, PlannedCommand>)
    requires SameTexts(p, q)
    ensures p == map[] <==> q == map[]
  {
    if k :| k in p {
      TextsPositive(p, p[k].command);
      TextsPositive(q, p[k].command);
    }
    if k :| k in q {
      TextsPositive(p, q[k].command);
      TextsPositive(q, q[k].command);
    }
  }

  // ---------------------------------------------------------------- whole rounds

  /** The same input, except that Go visits the pending map in another order. */
  predicate SameButOrder(a: Input, b: Input) {
    a.msg == b.msg && b.env == a.env.(order := b.env.order)
  }

  /** The confirm or skip names its command as Agrees asks for. */
  predicate Named(plan: map<string, PlannedCommand>, known: Known, input: Input) {
    match input.msg
    case Confirm(id, _) => Agrees(plan, id, ConfirmedText(input.msg, known))
    case Skip(id, command) => Agrees(plan, id, command)
    case _ => true
  }

  /** Two sessions that differ only in which of several equal commands are still pending. */
  ghost predicate Alike(plan: map<string, PlannedCommand>, s: Session, t: Session) {
    && s.known == t.known && s.d.prompt == t.d.prompt && s.d.plan == t.d.plan && s.d.evidence == t.d.evidence
    && Submap(s.d.pending, plan) && Submap(t.d.pending, plan) && SameTexts(s.d.pending, t.d.pending)
  }

  lemma ResolveKeepsAlike(plan: map<string, PlannedCommand>, d: Diagnosis, e: Diagnosis, id: string, text: string, orderD: seq<string>, orderE: seq<string>)
    requires Submap(d.pending, plan) && Submap(e.pending, plan) && SameTexts(d.pending, e.pending)
    requires Visits(orderD, d.pending) && Visits(orderE, e.pending) && Agrees(plan, id, text)
    ensures var kd, ke := ResolvedKey(d.pending, id, text, orderD), ResolvedKey(e.pending, id, text, orderE);
            && (kd.Some? <==> ke.Some?)
            && SameTexts(Without(d, kd).pending, Without(e, ke).pending)
            && Submap(Without(d, kd).pending, plan) && Submap(Without(e, ke).pending, plan)
            && (Without(d, kd).pending == map[] <==> Without(e, ke).pending == map[])
  {
    ResolveIsConfluent(plan, d.pending, e.pending, id, text, orderD, orderE);
    var kd, ke := ResolvedKey(d.pending, id, text, orderD), ResolvedKey(e.pending, id, text, orderE);
    SameTextsSameEmptiness(Without(d, kd).pending, Without(e, ke).pending);
  }

  lemma ConfirmIsConfluent(plan: map<string, PlannedCommand>, s: Session, t: Session, id: string, text: string, a: Env, b: Env)
    requires Alike(plan, s, t) && b == a.(order := b.order) && Agrees(plan, id, text)
    requires Visits(a.order, s.d.pending) && Visits(b.order, t.d.pending)
    ensures ConfirmEvents(s.d, id, text, a) == ConfirmEvents(t.d, id, text, b)
    ensures Alike(plan, Session(ConfirmAfter(s.d, id, text, a), s.known), Session(ConfirmAfter(t.d, id, text, b), t.known))
  {
    ResolveKeepsAlike(plan, s.d, t.d, id, text, a.order, b.order);
    var u, v := ConfirmAfter(s.d, id, text, a), ConfirmAfter(t.d, id, text, b);
    if ConfirmedKey(s.d, id, text, a).Some? {
      assert ConfirmedKey(t.d, id, text, b).Some?;
      ReportsAgree(u, v);
    }
  }

  lemma ReportsAgree(d: Diagnosis, e: Diagnosis)
    requires d.prompt == e.prompt && d.plan == e.plan && d.evidence == e.evidence && (d.pending == map[] <==> e.pending == map[])
    ensures ShouldReport(d) == ShouldReport(e) && SessionReport(d) == SessionReport(e)
  {
  }

  lemma SkipIsConfluent(plan: map<string, PlannedCommand>, s: Session, t: Session, id: string, text: string, a: Env, b: Env)
    requires Alike(plan, s, t) && Agrees(plan, id, text)
    requires Visits(a.order, s.d.pending) && Visits(b.order, t.d.pending)
    ensures var u, v := SkipTurn(s.d, s.known, id, text, a), SkipTurn(t.d, t.known, id, text, b);
            u.events == v.events && Alike(plan, Session(u.after, u.known), Session(v.after, v.known))
  {
    ResolveKeepsAlike(plan, s.d, t.d, id, text, a.order, b.order);
  }

  lemma StepIsConfluent(classify: string -> Decision, plan: map<string, PlannedCommand>, s: Session, t: Session, a: Input, b: Input)
    requires EnvFits(s.d, a.msg, a.env) && EnvFits(t.d, b.msg, b.env)
    requires Alike(plan, s, t) && SameButOrder(a, b) && !IsNewRound(a) && Named(plan, s.known, a)
    ensures Events(classify, s, a) == Events(classify, t, b)
    ensures Alike(plan, After(classify, s, a), After(classify, t, b))
  {
    if a.msg.Confirm? {
      ConfirmIsConfluent(plan, s, t, a.msg.id, ConfirmedText(a.msg, s.known), a.env, b.env);
    } else if a.msg.Skip? {
      SkipIsConfluent(plan, s, t, a.msg.id, a.msg.command, a.env, b.env);
    }
  }

  lemma {:induction false} RunsAreConfluent(classify: string -> Decision, plan: map<string, PlannedCommand>, s: Session, t: Session,
                                            a: seq<Input>, b: seq<Input>)
    requires Runs(classify, s, a) && Runs(classify, t, b) && |a| == |b| && SameRound(a) && Alike(plan, s, t)
    requires forall i | 0 <= i < |a| :: SameButOrder(a[i], b[i]) && Named(plan, s.known, a[i])
    ensures Trace(classify, s, a) == Trace(classify, t, b)
    ensures Alike(plan, Run(classify, s, a), Run(classify, t, b))
    decreases |a|
  {
    if a != [] {
      StepIsConfluent(classify, plan, s, t, a[0], b[0]);
      StepTakes(classify, s, a[0]);
      RunsAreConfluent(classify, plan, After(classify, s, a[0]), After(classify, t, b[0]), a[1..], b[1..]);
    }
  }

  /** Over a whole round of any messages, for any two choices of iteration orders: if every confirm and skip names its
      command well, the two runs send the same events, in the same order, and end with the same evidence and the same
      pending texts. */
  lemma RoundIsConfluent(classify: string -> Decision, s: Session, a: seq<Input>, b: seq<Input>)
    requires Runs(classify, s, a) && Runs(classify, s, b) && |a| == |b| && SameRound(a)
    requires forall i | 0 <= i < |a| :: SameButOrder(a[i], b[i]) && Named(s.d.pending, s.known, a[i])
    ensures Trace(classify, s, a) == Trace(classify, s, b)
    ensures Run(classify, s, a).d.evidence == Run(classify, s, b).d.evidence
    ensures SameTexts(Run(classify, s, a).d.pending, Run(classify, s, b).d.pending)
  {
    RunsAreConfluent(classify, s.d.pending, s, s, a, b);
  }

  /** Agreement is needed: after a resolution by text alone, skipping by identifier without a text succeeds or
      not depending on which of two equal commands Go had visited first. */
  lemma BareIdentifierIsOrderDependent(a: PlannedCommand, b: PlannedCommand)
    requires a.id == "a" && b.id == "b" && a.command == b.command != ""
    ensures var pending := map["a" := a, "b" := b];
            && SameTexts(Remaining(pending, ResolvedKey(pending, "", a.command, ["a", "b"])),
                         Remaining(pending, ResolvedKey(pending, "", a.command, ["b", "a"])))
            && ResolvedKey(Remaining(pending, ResolvedKey(pending, "", a.command, ["a", "b"])), "a", "", ["b"]).None?
            && ResolvedKey(Remaining(pending, ResolvedKey(pending, "", a.command, ["b", "a"])), "a", "", ["a"]).Some?
  {
    var pending := map["a" := a, "b" := b];
    assert FirstMatch(["a", "b"], pending, a.command) == Some("a");
    assert FirstMatch(["b", "a"], pending, a.command) == Some("b");
    ResolveIsConfluent(pending, pending, pending, "", a.command, ["a", "b"], ["b", "a"]);
    assert ["b"][1..] == [];
  }

  /** A confirm that carries only an identifier satisfies the agreement: the handler looks its text up. */
  lemma {:induction false} ConfirmByIdAgrees(known: Known, commands: seq<PlannedCommand>, i: nat)
    requires i < |commands| && HasIds(commands) && DistinctIds(commands)
    ensures ConfirmedText(Confirm(commands[i].id, ""), Stored(known, commands)) == commands[i].command
  {
    StoredLookup(known, commands, i);
  }

  lemma {:induction false} StoredLookup(known: Known, commands: seq<PlannedCommand>, i: nat)
    requires i < |commands| && HasIds(commands) && DistinctIds(commands)
    ensures commands[i].id in Stored(known, commands) && Stored(known, commands)[commands[i].id] == commands[i]
  {
    if i < |commands| - 1 {
      StoredLookup(known, commands[..|commands| - 1], i);
    }
  }
}

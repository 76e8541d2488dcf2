// The cluster informer manager as an interleaved step system. Each critical section of the manager's lock is
// one step; stopping one cluster is two (remove under the lock, close the channel afterwards); informers,
// waiters and timeouts move on their own.

module InformerProtocol {
  import opened Wrappers

  /** Pods, nodes, namespaces, services, config maps, secrets, deployments, stateful sets, daemon sets, jobs. */
  const CORE_INFORMERS: nat := 10

  /** One created runtime. `closes` counts the closings of its stop channel, `informers` holds the informers
      whose cache has synced; number CORE_INFORMERS is the rollout informer. */
  datatype Runtime = Runtime(cluster: nat, rollout: bool, started: bool, closes: nat, informers: set<nat>, synced: bool)

  predicate AllSynced(r: Runtime) {
    forall k: nat | k < CORE_INFORMERS + (if r.rollout then 1 else 0) :: k in r.informers
  }

  datatype Goroutine = NotStarted | Running | Finished

  /** One call of waitForSync: its runtime, its helper goroutine, the closings of its private channel, and what
      it returned. */
  datatype Waiter = Waiter(rt: nat, goroutine: Goroutine, closes: nat, outcome: Option<bool>)

  /** `runtimes` lists every runtime ever created; `stopping` those removed from the map whose channel the
      removing StopForCluster has not closed yet. */
  datatype State = State(clusters: map<nat, nat>, runtimes: seq<Runtime>, stopping: set<nat>, waiters: seq<Waiter>)

  datatype Action =
    | Ensure(id: nat, create: Option<bool>)   // create: None when the client cannot be built, else whether the rollout CRD exists
    | Remove(id: nat)                         // the locked half of StopForCluster
    | Close(i: nat)                           // its second half
    | StopAll                                 // Stop
    | InformerSyncs(i: nat, k: nat)
    | Wait(i: nat)                            // waitForSync is called
    | CachesSynced(w: nat)                    // WaitForCacheSync answers true in the goroutine of w
    | CachesStopped(w: nat)                   // it answers false
    | Timeout(w: nat)                         // the select of w takes ctx.Done
    | Deliver(w: nat)                         // the select of w takes syncCh

  const Initial := State(map[], [], {}, [])

  // ---------------------------------------------------------------- steps

  predicate Enabled(s: State, a: Action) {
    match a
    case Ensure(_, _) => true
    case Remove(_) => true
    case Close(i) => i in s.stopping && i < |s.runtimes|
    case StopAll => true
    case InformerSyncs(i, _) => i < |s.runtimes| && s.runtimes[i].started
    case Wait(i) => i < |s.runtimes|
    case CachesSynced(w) => Active(s, w) && AllSynced(s.runtimes[s.waiters[w].rt])
    case CachesStopped(w) => Active(s, w) && s.runtimes[s.waiters[w].rt].closes > 0
    case Timeout(w) => w < |s.waiters| && s.waiters[w].outcome == None
    case Deliver(w) =>
      w < |s.waiters| && s.waiters[w].rt < |s.runtimes| && s.waiters[w].outcome == None && s.waiters[w].closes > 0
  }

  predicate Active(s: State, w: nat) {
    w < |s.waiters| && s.waiters[w].rt < |s.runtimes| && s.waiters[w].goroutine == Running
  }

  function CloseOnce(r: Runtime): Runtime {
    r.(closes := r.closes + 1)
  }

  function Finish(w: Waiter): Waiter {
    w.(goroutine := Finished, closes := w.closes + 1)
  }

  function Next(s: State, a: Action): State
    requires Enabled(s, a)
  {
    match a
    case Ensure(id, create) =>
      if id in s.clusters || create == None then s
      else s.(clusters := s.clusters[id := |s.runtimes|],
              runtimes := s.runtimes + [Runtime(id, create.value, true, 0, {}, false)])
    case Remove(id) =>
      if id in s.clusters then s.(clusters := s.clusters - {id}, stopping := s.stopping + {s.clusters[id]}) else s
    case Close(i) =>
      s.(stopping := s.stopping - {i}, runtimes := s.runtimes[i := CloseOnce(s.runtimes[i])])
    case StopAll =>
      s.(clusters := map[],
         runtimes := seq(|s.runtimes|, i requires 0 <= i < |s.runtimes| =>
           if i in s.clusters.Values then CloseOnce(s.runtimes[i]) else s.runtimes[i]))
    case InformerSyncs(i, k) =>
      s.(runtimes := s.runtimes[i := s.runtimes[i].(informers := s.runtimes[i].informers + {k})])
    case Wait(i) =>
      s.(waiters := s.waiters + [if s.runtimes[i].synced then Waiter(i, NotStarted, 0, Some(true))
                                 else Waiter(i, Running, 0, None)])
    case CachesSynced(w) =>
      var i := s.waiters[w].rt;
      s.(runtimes := s.runtimes[i := s.runtimes[i].(synced := true)], waiters := s.waiters[w := Finish(s.waiters[w])])
    case CachesStopped(w) =>
      s.(waiters := s.waiters[w := Finish(s.waiters[w])])
    case Timeout(w) =>
      s.(waiters := s.waiters[w := s.waiters[w].(outcome := Some(false))])
    case Deliver(w) =>
      s.(waiters := s.waiters[w := s.waiters[w].(outcome := Some(s.runtimes[s.waiters[w].rt].synced))])
  }

  predicate Runs(s: State, actions: seq<Action>)
    decreases |actions|
  {
    actions == [] || (Enabled(s, actions[0]) && Runs(Next(s, actions[0]), actions[1..]))
  }

  function Run(s: State, actions: seq<Action>): State
    requires Runs(s, actions)
    decreases |actions|
  {
    if actions == [] then s else Run(Next(s, actions[0]), actions[1..])
  }

  lemma RunOfTwo(s: State, a: Action, b: Action)
    requires Enabled(s, a) && Enabled(Next(s, a), b)
    ensures Runs(s, [a, b]) && Run(s, [a, b]) == Next(Next(s, a), b)
  {
    RunOfOne(Next(s, a), b);
    assert [a, b][0] == a && [a, b][1..] == [b];
  }

  lemma RunOfOne(s: State, a: Action)
    requires Enabled(s, a)
    ensures Runs(s, [a]) && Run(s, [a]) == Next(s, a)
  {
    assert [a][0] == a && [a][1..] == [];
  }

  // ---------------------------------------------------------------- the invariant

  /** A runtime that must still be closed by someone. */
  predicate Open(s: State, i: nat) {
    i < |s.runtimes| && s.runtimes[i].started && s.runtimes[i].closes == 0
  }

  predicate InMap(s: State, i: nat) {
    i < |s.runtimes| && s.runtimes[i].cluster in s.clusters && s.clusters[s.runtimes[i].cluster] == i
  }

  ghost predicate Inv(s: State) {
    && (forall id | id in s.clusters :: Open(s, s.clusters[id]) && s.runtimes[s.clusters[id]].cluster == id
          && s.clusters[id] !in s.stopping)
    && (forall i | i in s.stopping :: Open(s, i))
    && (forall i: nat | i < |s.runtimes| :: RuntimeOk(s, i))
    && (forall w: nat | w < |s.waiters| :: WaiterOk(s, s.waiters[w]))
  }

  predicate RuntimeOk(s: State, i: nat)
    requires i < |s.runtimes|
  {
    var r := s.runtimes[i];
    && r.closes <= 1
    && (r.closes == 0 <==> InMap(s, i) || i in s.stopping)
    && (r.synced ==> AllSynced(r))
  }

  predicate WaiterOk(s: State, w: Waiter) {
    && w.rt < |s.runtimes|
    && w.closes <= 1
    && (w.goroutine == Finished <==> w.closes == 1)
    && (w.outcome == Some(true) ==> s.runtimes[w.rt].synced)
  }

  lemma InvHoldsInitially()
    ensures Inv(Initial)
  {
  }

  lemma InvPreservedByMapSteps(s: State, a: Action)
    requires Inv(s) && Enabled(s, a) && (a.Ensure? || a.Remove? || a.Close?)
    ensures Inv(Next(s, a))
  {
    var t := Next(s, a);
    forall i: nat | i < |t.runtimes| ensures RuntimeOk(t, i) {
      if i < |s.runtimes| {
        assert RuntimeOk(s, i);
      }
    }
    forall w: nat | w < |t.waiters| ensures WaiterOk(t, t.waiters[w]) {
      assert WaiterOk(s, s.waiters[w]);
    }
  }

  lemma InvPreservedByStopAll(s: State)
    requires Inv(s)
    ensures Inv(Next(s, StopAll))
  {
    var t := Next(s, StopAll);
    forall i: nat | i < |t.runtimes| ensures RuntimeOk(t, i) {
      assert RuntimeOk(s, i);
      if i in s.clusters.Values {
        var id :| id in s.clusters && s.clusters[id] == i;
      }
    }
    forall w: nat | w < |t.waiters| ensures WaiterOk(t, t.waiters[w]) {
      assert WaiterOk(s, s.waiters[w]);
    }
    forall i | i in t.stopping ensures Open(t, i) {
      assert i !in s.clusters.Values;
    }
  }

  lemma InvPreservedByWaiterSteps(s: State, a: Action)
    requires Inv(s) && Enabled(s, a) && !(a.Ensure? || a.Remove? || a.Close? || a.StopAll?)
    ensures Inv(Next(s, a))
  {
    var t := Next(s, a);
    forall i: nat | i < |t.runtimes| ensures RuntimeOk(t, i) {
      assert RuntimeOk(s, i);
    }
    forall w: nat | w < |t.waiters| ensures WaiterOk(t, t.waiters[w]) {
      if w < |s.waiters| {
        assert WaiterOk(s, s.waiters[w]);
      }
    }
  }

  lemma InvPreserved(s: State, a: Action)
    requires Inv(s) && Enabled(s, a)
    ensures Inv(Next(s, a))
  {
    if a.StopAll? {
      InvPreservedByStopAll(s);
    } else if a.Ensure? || a.Remove? || a.Close? {
      InvPreservedByMapSteps(s, a);
    } else {
      InvPreservedByWaiterSteps(s, a);
    }
  }

  lemma {:induction false} InvPreservedByRuns(s: State, actions: seq<Action>)
    requires Inv(s) && Runs(s, actions)
    ensures Inv(Run(s, actions))
    decreases |actions|
  {
    if actions != [] {
      InvPreserved(s, actions[0]);
      InvPreservedByRuns(Next(s, actions[0]), actions[1..]);
    }
  }

  // ---------------------------------------------------------------- what every run guarantees

  /** In every interleaving from the start: what the map holds is started and open, clusters share no runtime,
      no stop channel is closed twice, and every runtime still open is in the map or held by the StopForCluster
      that removed it, so nothing leaks. */
  lemma RuntimesAreSafe(actions: seq<Action>)
    requires Runs(Initial, actions)
    ensures var s := Run(Initial, actions);
            && (forall id | id in s.clusters :: Open(s, s.clusters[id]))
            && (forall x, y | x in s.clusters && y in s.clusters && s.clusters[x] == s.clusters[y] :: x == y)
            && (forall i: nat | i < |s.runtimes| :: s.runtimes[i].closes <= 1)
            && (forall i: nat | i < |s.runtimes| && s.runtimes[i].closes == 0 ::
                  (exists id | id in s.clusters :: s.clusters[id] == i) != (i in s.stopping))
  {
    InvHoldsInitially();
    InvPreservedByRuns(Initial, actions);
    var s := Run(Initial, actions);
    forall i: nat | i < |s.runtimes| && s.runtimes[i].closes == 0
      ensures (exists id | id in s.clusters :: s.clusters[id] == i) != (i in s.stopping)
    {
      assert RuntimeOk(s, i);
    }
    forall i: nat | i < |s.runtimes| ensures s.runtimes[i].closes <= 1 {
      assert RuntimeOk(s, i);
    }
  }

  /** A Close step never finds its channel closed: the Once around the close is never what prevents a panic. */
  lemma CloseFindsChannelOpen(actions: seq<Action>, i: nat)
    requires Runs(Initial, actions) && Enabled(Run(Initial, actions), Close(i))
    ensures Run(Initial, actions).runtimes[i].closes == 0
  {
    InvPreservedByRuns(Initial, actions);
  }

  /** After Stop, once the pending closes are done, every runtime ever created is closed exactly once. */
  lemma StopClosesEverything(actions: seq<Action>)
    requires Runs(Initial, actions) && Run(Initial, actions).stopping == {}
    ensures var s := Next(Run(Initial, actions), StopAll);
            s.clusters == map[] && forall i: nat | i < |s.runtimes| :: s.runtimes[i].closes == 1
  {
    InvPreservedByRuns(Initial, actions);
    var s := Next(Run(Initial, actions), StopAll);
    InvPreservedByStopAll(Run(Initial, actions));
    forall i: nat | i < |s.runtimes| ensures s.runtimes[i].closes == 1 {
      assert RuntimeOk(s, i);
    }
  }

  // ---------------------------------------------------------------- created = removed + present

  function Created(runtimes: seq<Runtime>, id: nat): nat {
    if runtimes == [] then 0
    else Created(runtimes[..|runtimes| - 1], id) + if runtimes[|runtimes| - 1].cluster == id then 1 else 0
  }

  predicate Removes(s: State, a: Action, id: nat) {
    id in s.clusters && (a == Remove(id) || a == StopAll)
  }

  function Removed(s: State, actions: seq<Action>, id: nat): nat
    requires Runs(s, actions)
    decreases |actions|
  {
    if actions == [] then 0
    else (if Removes(s, actions[0], id) then 1 else 0) + Removed(Next(s, actions[0]), actions[1..], id)
  }

  function Present(s: State, id: nat): nat {
    if id in s.clusters then 1 else 0
  }

  lemma {:induction false} CreatedDependsOnClusters(a: seq<Runtime>, b: seq<Runtime>, id: nat)
    requires |a| == |b| && forall i | 0 <= i < |a| :: a[i].cluster == b[i].cluster
    ensures Created(a, id) == Created(b, id)
  {
    if a != [] {
      CreatedDependsOnClusters(a[..|a| - 1], b[..|b| - 1], id);
    }
  }

  lemma CreatedStep(s: State, a: Action, id: nat)
    requires Enabled(s, a)
    ensures Created(Next(s, a).runtimes, id) + Present(s, id)
         == Created(s.runtimes, id) + Present(Next(s, a), id) + (if Removes(s, a, id) then 1 else 0)
  {
    if a.Ensure? && a.id !in s.clusters && a.create.Some? {
      var t := Next(s, a);
      assert t.runtimes[..|t.runtimes| - 1] == s.runtimes;
    } else {
      NoNewRuntime(s, a);
      CreatedDependsOnClusters(s.runtimes, Next(s, a).runtimes, id);
      NoNewEntry(s, a, id);
    }
  }

  lemma NoNewEntry(s: State, a: Action, id: nat)
    requires Enabled(s, a) && !(a.Ensure? && a.id !in s.clusters && a.create.Some?)
    ensures Present(s, id) == Present(Next(s, a), id) + (if Removes(s, a, id) then 1 else 0)
  {
  }

  lemma NoNewRuntime(s: State, a: Action)
    requires Enabled(s, a) && !(a.Ensure? && a.id !in s.clusters && a.create.Some?)
    ensures var t := Next(s, a);
            |t.runtimes| == |s.runtimes| && forall i | 0 <= i < |s.runtimes| :: t.runtimes[i].cluster == s.runtimes[i].cluster
  {
  }

  /** In every run and for every cluster: runtimes created = runtimes removed + 1 if one is in the map. */
  lemma {:induction false} CreatedEqualsRemovedPlusPresent(s: State, actions: seq<Action>, id: nat)
    requires Runs(s, actions)
    ensures Created(Run(s, actions).runtimes, id) + Present(s, id)
         == Created(s.runtimes, id) + Present(Run(s, actions), id) + Removed(s, actions, id)
    decreases |actions|
  {
    if actions != [] {
      CreatedStep(s, actions[0], id);
      CreatedEqualsRemovedPlusPresent(Next(s, actions[0]), actions[1..], id);
    }
  }

  lemma RuntimesAreConserved(actions: seq<Action>, id: nat)
    requires Runs(Initial, actions)
    ensures Created(Run(Initial, actions).runtimes, id)
         == Removed(Initial, actions, id) + Present(Run(Initial, actions), id)
  {
    CreatedEqualsRemovedPlusPresent(Initial, actions, id);
  }

  /** A caller that has ensured the cluster and asks for a lister later gets nil exactly when the cluster has been removed
      since once more than it has been created again. */
  lemma ListerIsNilAfterRemoval(s: State, actions: seq<Action>, id: nat)
    requires Runs(s, actions) && id in s.clusters
    ensures id !in Run(s, actions).clusters <==>
      Removed(s, actions, id) == Created(Run(s, actions).runtimes, id) - Created(s.runtimes, id) + 1
  {
    CreatedEqualsRemovedPlusPresent(s, actions, id);
  }

  /** The runtime that EnsureForCluster(id) would return now. */
  function Held(s: State, id: nat): Option<nat> {
    if id in s.clusters then Some(s.clusters[id]) else None
  }

  /** Between two Ensure calls without a stop of that cluster in between, the runtime is the same one. */
  lemma {:induction false} EnsureIsStable(s: State, actions: seq<Action>, id: nat)
    requires Runs(s, actions) && id in s.clusters && Removed(s, actions, id) == 0
    ensures Held(Run(s, actions), id) == Held(s, id)
    decreases |actions|
  {
    if actions != [] {
      assert !Removes(s, actions[0], id);
      EnsureIsStable(Next(s, actions[0]), actions[1..], id);
    }
  }

  // ---------------------------------------------------------------- waiting

  /** What only grows: nothing a run does takes back a sync, reopens a channel or drops a runtime. */
  predicate Grows(r: Runtime, q: Runtime) {
    && r.cluster == q.cluster && r.rollout == q.rollout
    && r.closes <= q.closes && r.informers <= q.informers
    && (r.started ==> q.started) && (r.synced ==> q.synced)
  }

  ghost predicate Later(s: State, t: State) {
    && |s.runtimes| <= |t.runtimes| && |s.waiters| <= |t.waiters|
    && (forall i | 0 <= i < |s.runtimes| :: Grows(s.runtimes[i], t.runtimes[i]))
    && (forall w | 0 <= w < |s.waiters| :: s.waiters[w].rt == t.waiters[w].rt
          && (s.waiters[w].outcome.Some? ==> t.waiters[w].outcome == s.waiters[w].outcome))
  }

  lemma {:induction false} RunsOnlyGrow(s: State, actions: seq<Action>)
    requires Runs(s, actions)
    ensures Later(s, Run(s, actions))
    decreases |actions|
  {
    if actions != [] {
      var m := Next(s, actions[0]);
      assert Later(s, m);
      RunsOnlyGrow(m, actions[1..]);
      var t := Run(m, actions[1..]);
      forall i | 0 <= i < |s.runtimes| ensures Grows(s.runtimes[i], t.runtimes[i]) {
        assert Grows(s.runtimes[i], m.runtimes[i]) && Grows(m.runtimes[i], t.runtimes[i]);
      }
    }
  }

  /** With any number of waiters, timeouts and stops: when a wait has succeeded, the ten informers of its runtime, and the
      rollout informer where it exists, have synced, and stay synced in every later state; no waiter's channel is closed
      twice. */
  lemma SuccessfulWaitMeansSynced(actions: seq<Action>, later: seq<Action>, w: nat)
    requires Runs(Initial, actions) && Runs(Run(Initial, actions), later)
    requires w < |Run(Initial, actions).waiters|
    ensures var s := Run(Initial, actions);
            var t := Run(s, later);
            && s.waiters[w].closes <= 1
            && s.waiters[w].rt < |s.runtimes| <= |t.runtimes|
            && (s.waiters[w].outcome == Some(true) ==>
                  && (forall k: nat | k < 10 :: k in s.runtimes[s.waiters[w].rt].informers)
                  && (s.runtimes[s.waiters[w].rt].rollout ==> 10 in s.runtimes[s.waiters[w].rt].informers)
                  && s.runtimes[s.waiters[w].rt].informers <= t.runtimes[s.waiters[w].rt].informers)
  {
    var s := Run(Initial, actions);
    InvPreservedByRuns(Initial, actions);
    RunsOnlyGrow(s, later);
    var i := s.waiters[w].rt;
    assert WaiterOk(s, s.waiters[w]) && RuntimeOk(s, i);
    assert Grows(s.runtimes[i], Run(s, later).runtimes[i]);
  }

  /** A wait on a runtime that has synced succeeds at once, and for good. */
  lemma WaitOnSyncedSucceedsAtOnce(s: State, i: nat, later: seq<Action>)
    requires Enabled(s, Wait(i)) && s.runtimes[i].synced && Runs(Next(s, Wait(i)), later)
    ensures var t := Run(Next(s, Wait(i)), later);
            |s.waiters| < |t.waiters| && t.waiters[|s.waiters|].rt == i && t.waiters[|s.waiters|].outcome == Some(true)
  {
    RunsOnlyGrow(Next(s, Wait(i)), later);
  }

  /** So EnsureAndWait for a cluster that is known and has synced returns its runtime at once. */
  lemma EnsureAndWaitOnSynced(s: State, id: nat, create: Option<bool>)
    requires id in s.clusters && s.clusters[id] < |s.runtimes| && s.runtimes[s.clusters[id]].synced
    ensures var actions := [Ensure(id, create), Wait(s.clusters[id])];
            Runs(s, actions) && Held(Run(s, actions), id) == Some(s.clusters[id]) && HasOutcome(Run(s, actions), |s.waiters|, true)
  {
    RunOfTwo(s, Ensure(id, create), Wait(s.clusters[id]));
  }

  /** The steps in which wait w returns `ok`: it was called on a synced runtime; or its select took the context; or its
      select took the channel, and the runtime had synced or not. */
  predicate ReturnsNow(s: State, a: Action, w: nat, ok: bool)
    requires Enabled(s, a)
  {
    match a
    case Wait(i) => ok && w == |s.waiters| && s.runtimes[i].synced
    case Timeout(v) => !ok && v == w
    case Deliver(v) => v == w && ok == s.runtimes[s.waiters[w].rt].synced
    case _ => false
  }

  predicate Returns(s: State, actions: seq<Action>, w: nat, ok: bool)
    requires Runs(s, actions)
    decreases |actions|
  {
    actions != [] && (ReturnsNow(s, actions[0], w, ok) || Returns(Next(s, actions[0]), actions[1..], w, ok))
  }

  predicate HasOutcome(s: State, w: nat, ok: bool) {
    w < |s.waiters| && s.waiters[w].outcome == Some(ok)
  }

  lemma OutcomeStep(s: State, a: Action, w: nat, ok: bool)
    requires Enabled(s, a)
    ensures HasOutcome(Next(s, a), w, ok) <==> HasOutcome(s, w, ok) || ReturnsNow(s, a, w, ok)
  {
  }

  lemma {:induction false} OutcomeOfRun(s: State, actions: seq<Action>, w: nat, ok: bool)
    requires Runs(s, actions)
    ensures HasOutcome(Run(s, actions), w, ok) <==> HasOutcome(s, w, ok) || Returns(s, actions, w, ok)
    decreases |actions|
  {
    if actions != [] {
      OutcomeStep(s, actions[0], w, ok);
      OutcomeOfRun(Next(s, actions[0]), actions[1..], w, ok);
    }
  }

  /** In every run a wait has failed exactly when its select took the context, or took the channel while the runtime had
      not synced; it has succeeded exactly when it was called on a synced runtime or took the channel of one. */
  lemma WaitVerdict(actions: seq<Action>, w: nat, ok: bool)
    requires Runs(Initial, actions)
    ensures HasOutcome(Run(Initial, actions), w, ok) <==> Returns(Initial, actions, w, ok)
  {
    OutcomeOfRun(Initial, actions, w, ok);
  }

  /** The caller's context can always end a wait. */
  lemma WaitCanTimeOut(s: State, w: nat)
    requires w < |s.waiters| && s.waiters[w].outcome == None
    ensures Runs(s, [Timeout(w)]) && HasOutcome(Run(s, [Timeout(w)]), w, false)
  {
    RunOfOne(s, Timeout(w));
  }

  /** A waiter whose goroutine still runs is never stuck once its caches have synced or its runtime was closed:
      two more steps make it return, with success exactly in the first case. */
  lemma WaiterCanReturn(s: State, w: nat) returns (more: seq<Action>)
    requires Inv(s) && Active(s, w) && s.waiters[w].outcome == None
    requires AllSynced(s.runtimes[s.waiters[w].rt]) || s.runtimes[s.waiters[w].rt].closes > 0
    ensures Runs(s, more) && w < |Run(s, more).waiters|
    ensures Run(s, more).waiters[w].outcome == Some(AllSynced(s.runtimes[s.waiters[w].rt]))
  {
    var i := s.waiters[w].rt;
    assert WaiterOk(s, s.waiters[w]) && RuntimeOk(s, i);
    var finish := if AllSynced(s.runtimes[i]) then CachesSynced(w) else CachesStopped(w);
    more := [finish, Deliver(w)];
    RunOfTwo(s, finish, Deliver(w));
  }

  lemma {:induction false} RunConcat(s: State, a: seq<Action>, b: seq<Action>)
    requires Runs(s, a) && Runs(Run(s, a), b)
    ensures Runs(s, a + b) && Run(s, a + b) == Run(Run(s, a), b)
    decreases |a|
  {
    if a == [] {
      assert a + b == b;
    } else {
      assert (a + b)[0] == a[0] && (a + b)[1..] == a[1..] + b;
      RunConcat(Next(s, a[0]), a[1..], b);
    }
  }

  lemma {:induction false} SyncInformers(s: State, i: nat, n: nat) returns (more: seq<Action>)
    requires i < |s.runtimes| && s.runtimes[i].started
    ensures Runs(s, more)
    ensures var t := Run(s, more);
            && t.waiters == s.waiters && |t.runtimes| == |s.runtimes|
            && t.runtimes[i].started && forall k: nat | k < n :: k in t.runtimes[i].informers
  {
    more := [];
    if n > 0 {
      var first := SyncInformers(s, i, n - 1);
      var m := Run(s, first);
      RunOfOne(m, InformerSyncs(i, n - 1));
      more := first + [InformerSyncs(i, n - 1)];
      RunConcat(s, first, [InformerSyncs(i, n - 1)]);
    }
  }

  /** As long as its runtime is open a wait can still succeed: eleven informers syncing are enough, ten of them without
      rollouts. */
  lemma WaitCanSucceed(s: State, w: nat) returns (more: seq<Action>)
    requires Inv(s) && Active(s, w) && s.waiters[w].outcome == None && Open(s, s.waiters[w].rt)
    ensures Runs(s, more) && HasOutcome(Run(s, more), w, true)
  {
    var i := s.waiters[w].rt;
    var syncs := SyncInformers(s, i, if s.runtimes[i].rollout then 11 else 10);
    var m := Run(s, syncs);
    InvPreservedByRuns(s, syncs);
    RunsOnlyGrow(s, syncs);
    assert Grows(s.runtimes[i], m.runtimes[i]);
    var last := WaiterCanReturn(m, w);
    more := syncs + last;
    RunConcat(s, syncs, last);
  }

  // ---------------------------------------------------------------- what is created

  /** The Ensure steps that find their cluster absent and can build a client, with what the probe for rollouts says. */
  function Creations(s: State, actions: seq<Action>): seq<(nat, bool)>
    requires Runs(s, actions)
    decreases |actions|
  {
    if actions == [] then []
    else
      (if actions[0].Ensure? && actions[0].id !in s.clusters && actions[0].create.Some?
       then [(actions[0].id, actions[0].create.value)] else [])
      + Creations(Next(s, actions[0]), actions[1..])
  }

  function Identities(runtimes: seq<Runtime>): seq<(nat, bool)> {
    seq(|runtimes|, i requires 0 <= i < |runtimes| => (runtimes[i].cluster, runtimes[i].rollout))
  }

  lemma IdentitiesStep(s: State, a: Action)
    requires Enabled(s, a)
    ensures Identities(Next(s, a).runtimes) == Identities(s.runtimes)
          + if a.Ensure? && a.id !in s.clusters && a.create.Some? then [(a.id, a.create.value)] else []
  {
  }

  lemma {:induction false} IdentitiesOfRun(s: State, actions: seq<Action>)
    requires Runs(s, actions)
    ensures Identities(Run(s, actions).runtimes) == Identities(s.runtimes) + Creations(s, actions)
    decreases |actions|
  {
    if actions == [] {
      assert Identities(s.runtimes) + [] == Identities(s.runtimes);
    } else {
      IdentitiesStep(s, actions[0]);
      IdentitiesOfRun(Next(s, actions[0]), actions[1..]);
    }
  }

  /** In every run the runtimes are, one by one, what the creating Ensure calls asked for: cluster by cluster, with the
      rollout informer exactly where the probe found rollouts. */
  lemma RuntimesAreTheEnsured(actions: seq<Action>)
    requires Runs(Initial, actions)
    ensures Identities(Run(Initial, actions).runtimes) == Creations(Initial, actions)
  {
    IdentitiesOfRun(Initial, actions);
    assert Identities(Initial.runtimes) == [];
  }
}

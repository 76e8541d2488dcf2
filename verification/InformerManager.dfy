// ClusterInformerManager and ClusterRuntime as the objects the source has. Every method is one critical section
// (or one unlocked close) and is proved to take exactly the corresponding step of InformerProtocol.

module InformerManager {
  import opened Wrappers
  import opened InformerProtocol

  class ClusterRuntime {
    const cluster: nat
    const rolloutEnabled: bool
    var started: bool
    var synced: bool
    var stopOnceDone: bool
    var stopChCloses: nat

    constructor (cluster: nat, rolloutEnabled: bool)
      ensures this.cluster == cluster && this.rolloutEnabled == rolloutEnabled
      ensures !started && !synced && !stopOnceDone && stopChCloses == 0
    {
      this.cluster, this.rolloutEnabled := cluster, rolloutEnabled;
      started, synced, stopOnceDone, stopChCloses := false, false, false, 0;
    }

    /** rt.stopOnce.Do(func() { close(rt.stopCh) }) */
    method StopOnce()
      modifies this
      ensures stopOnceDone && started == old(started) && synced == old(synced)
      ensures stopChCloses == old(stopChCloses) + if old(stopOnceDone) then 0 else 1
    {
      if !stopOnceDone {
        stopOnceDone := true;
        stopChCloses := stopChCloses + 1;
      }
    }

    /** rt.startOnce.Do on a new runtime */
    method Start()
      modifies this
      ensures started && synced == old(synced) && stopOnceDone == old(stopOnceDone) && stopChCloses == old(stopChCloses)
    {
      started := true;
    }

    predicate Is(r: Runtime)
      reads this
    {
      && cluster == r.cluster && rolloutEnabled == r.rollout && started == r.started
      && synced == r.synced && stopChCloses == r.closes && (stopOnceDone <==> r.closes > 0)
    }
  }

  class ClusterInformerManager {
    var clusters: map<nat, ClusterRuntime>
    ghost var created: seq<ClusterRuntime>
    ghost var state: State

    /** The lock invariant: the objects are the runtimes of a protocol state that satisfies its invariant. */
    ghost predicate Valid()
      reads this, created
    {
      && Inv(state)
      && Mirrors(created, state.runtimes)
      && MapsTo(clusters, created, state.clusters)
    }

    constructor ()
      ensures Valid() && state == Initial
    {
      clusters, created, state := map[], [], Initial;
    }

    /** `create` is what building the client and probing for the rollout CRD yield. */
    method EnsureForCluster(id: nat, create: Option<bool>) returns (rt: ClusterRuntime?)
      requires Valid()
      modifies this
      ensures Valid() && state == Next(old(state), Ensure(id, create))
      ensures rt == null <==> id !in old(clusters) && create == None
      ensures rt != null ==> id in clusters && rt == clusters[id]
      ensures id in old(clusters) ==> rt == old(clusters)[id]
      ensures id !in old(clusters) && rt != null ==> fresh(rt) && created == old(created) + [rt]
    {
      if id in clusters {
        return clusters[id];
      }
      if create == None {
        return null;
      }
      rt := Create(id, create.value);
    }

    /** The creating part of EnsureForCluster. */
    method Create(id: nat, rollout: bool) returns (rt: ClusterRuntime)
      requires Valid() && id !in clusters
      modifies this
      ensures Valid() && state == Next(old(state), Ensure(id, Some(rollout)))
      ensures fresh(rt) && created == old(created) + [rt] && id in clusters && clusters[id] == rt
    {
      rt := new ClusterRuntime(id, rollout);
      rt.Start();
      ghost var r := Runtime(id, rollout, true, 0, {}, false);
      MirrorsOneMore(created, state.runtimes, rt, r);
      MapsToOneMore(clusters, created, state.clusters, id, rt);
      EnsureCreates(state, id, rollout, r);
      InvPreserved(state, Ensure(id, Some(rollout)));
      state := Next(state, Ensure(id, Some(rollout)));
      clusters := clusters[id := rt];
      created := created + [rt];
    }

    /** The locked half of StopForCluster. */
    method TakeForStop(id: nat) returns (rt: ClusterRuntime?)
      requires Valid()
      modifies this
      ensures Valid() && state == Next(old(state), Remove(id)) && created == old(created)
      ensures rt == null <==> id !in old(clusters)
      ensures rt != null ==> rt == old(clusters)[id] && old(state).clusters[id] in state.stopping
      ensures id !in clusters
    {
      InvPreserved(state, Remove(id));
      rt := null;
      if id in clusters {
        rt := clusters[id];
        clusters := clusters - {id};
      }
      state := Next(state, Remove(id));
    }

    /** The unlocked half: whatever other sections ran in between, the close happens, once. */
    method CloseTaken(ghost i: nat, rt: ClusterRuntime)
      requires Valid() && i in state.stopping && i < |created| && rt == created[i]
      modifies this, rt
      ensures Valid() && state == Next(old(state), Close(i)) && created == old(created) && clusters == old(clusters)
      ensures old(rt.stopChCloses) == 0 && rt.stopChCloses == 1
    {
      InvPreserved(state, Close(i));
      rt.StopOnce();
      state := Next(state, Close(i));
    }

    /** StopForCluster with nothing interleaved. */
    method StopForCluster(id: nat)
      requires Valid()
      modifies this, clusters.Values
      ensures Valid() && id !in clusters
      ensures id in old(clusters) ==> old(clusters)[id].stopChCloses == 1
      ensures Runs(old(state), StopActions(old(state), id)) && state == Run(old(state), StopActions(old(state), id))
    {
      ghost var before := state;
      var rt := TakeForStop(id);
      if rt != null {
        CloseTaken(before.clusters[id], rt);
        RunOfTwo(before, Remove(id), Close(before.clusters[id]));
      }
    }

    /** Midway through Stop: the runtimes in `closed` are closed and gone from the map. */
    ghost predicate Closing(closed: set<nat>)
      reads this, created
    {
      && closed <= state.clusters.Values
      && Mirrors(created, ClosedRuntimes(state.runtimes, closed))
      && MapsToRest(clusters, created, state.clusters, closed)
    }

    /** The body of the loop in Stop. */
    method CloseEntry(id: nat, ghost closed: set<nat>)
      requires Closing(closed) && id in clusters
      requires OpenEntries(state)
      modifies this`clusters, clusters[id]
      ensures Closing(closed + {state.clusters[id]})
      ensures clusters == old(clusters) - {id}
    {
      ghost var e := state.clusters[id];
      ghost var runtimes := ClosedRuntimes(state.runtimes, closed);
      StopMirrored(created, runtimes, e, clusters[id]);
      CloseOneMore(state.runtimes, closed, e);
      RestWithout(clusters, created, state, closed, id);
      clusters := clusters - {id};
    }

    /** The loop of Stop: Go visits the map in any order, and deletes while it iterates. */
    method CloseAll() returns (ghost closed: set<nat>)
      requires Closing({}) && OpenEntries(state)
      modifies this`clusters, created
      ensures Closing(closed) && clusters == map[]
    {
      closed := {};
      while clusters != map[]
        invariant Closing(closed)
        decreases clusters.Keys
      {
        var id :| id in clusters;
        assert clusters[id] == created[state.clusters[id]];
        CloseEntry(id, closed);
        closed := closed + {state.clusters[id]};
      }
    }

    /** Stop */
    method Stop()
      requires Valid()
      modifies this, created
      ensures Valid() && clusters == map[]
      ensures state == Next(old(state), StopAll) && created == old(created)
    {
      NothingClosedYet(state.runtimes);
      NothingTakenYet(clusters, created, state.clusters);
      InvPreserved(state, StopAll);
      ghost var closed := CloseAll();
      StopAllCloses(state, closed, created);
      state := Next(state, StopAll);
    }

    /** The write of the waiting goroutine after WaitForCacheSync has answered true. */
    method MarkSynced(ghost w: nat, rt: ClusterRuntime)
      requires Valid() && Enabled(state, CachesSynced(w)) && rt == created[state.waiters[w].rt]
      modifies this, rt
      ensures Valid() && state == Next(old(state), CachesSynced(w)) && created == old(created)
    {
      InvPreserved(state, CachesSynced(w));
      rt.synced := true;
      state := Next(state, CachesSynced(w));
    }

    /** waitForSync up to its select: a runtime that has synced needs no wait. */
    method BeginWait(ghost i: nat, rt: ClusterRuntime) returns (ready: bool)
      requires Valid() && i < |created| && rt == created[i]
      modifies this
      ensures Valid() && state == Next(old(state), Wait(i)) && created == old(created) && clusters == old(clusters)
      ensures ready <==> HasOutcome(state, |old(state).waiters|, true)
      ensures !ready ==> Active(state, |old(state).waiters|) && state.waiters[|old(state).waiters|].outcome == None
    {
      InvPreserved(state, Wait(i));
      state := Next(state, Wait(i));
      return rt.synced;
    }

    /** The select: it takes the context, or the channel once the goroutine has closed it. */
    method FinishWait(ghost w: nat, rt: ClusterRuntime, contextDone: bool) returns (ready: bool)
      requires Valid() && Enabled(state, if contextDone then Timeout(w) else Deliver(w)) && WaitsFor(w, rt)
      modifies this
      ensures Valid() && state == Next(old(state), if contextDone then Timeout(w) else Deliver(w))
      ensures created == old(created) && clusters == old(clusters) && HasOutcome(state, w, ready)
    {
      InvPreserved(state, if contextDone then Timeout(w) else Deliver(w));
      state := Next(state, if contextDone then Timeout(w) else Deliver(w));
      if contextDone {
        return false;
      }
      return rt.synced;
    }

    /** Wait w is one on this runtime. */
    ghost predicate WaitsFor(w: nat, rt: ClusterRuntime)
      reads this
    {
      w < |state.waiters| && state.waiters[w].rt < |created| && rt == created[state.waiters[w].rt]
    }
  }

  /** Each cluster's entry is open and its own. */
  predicate OpenEntries(s: State) {
    forall id | id in s.clusters :: Open(s, s.clusters[id]) && s.runtimes[s.clusters[id]].cluster == id
  }

  // ---------------------------------------------------------------- objects and the runtimes they stand for

  /** The objects are distinct, and each is its runtime. */
  ghost predicate Mirrors(objects: seq<ClusterRuntime>, runtimes: seq<Runtime>)
    reads objects
  {
    && |objects| == |runtimes|
    && (forall i, j | 0 <= i < j < |objects| :: objects[i] != objects[j])
    && (forall i | 0 <= i < |objects| :: objects[i].Is(runtimes[i]))
  }

  ghost predicate MapsTo(clusters: map<nat, ClusterRuntime>, objects: seq<ClusterRuntime>, indices: map<nat, nat>) {
    && clusters.Keys == indices.Keys
    && (forall id | id in clusters :: indices[id] < |objects| && clusters[id] == objects[indices[id]])
  }

  /** The same for the clusters whose runtime is not in `closed`. */
  ghost predicate MapsToRest(clusters: map<nat, ClusterRuntime>, objects: seq<ClusterRuntime>, indices: map<nat, nat>, closed: set<nat>) {
    && clusters.Keys <= indices.Keys
    && (forall id | id in indices :: id in clusters <==> indices[id] !in closed)
    && (forall id | id in clusters :: indices[id] < |objects| && clusters[id] == objects[indices[id]])
  }

  lemma MirrorsOneMore(objects: seq<ClusterRuntime>, runtimes: seq<Runtime>, rt: ClusterRuntime, r: Runtime)
    requires Mirrors(objects, runtimes) && rt !in objects && rt.Is(r)
    ensures Mirrors(objects + [rt], runtimes + [r])
  {
  }

  lemma MapsToOneMore(clusters: map<nat, ClusterRuntime>, objects: seq<ClusterRuntime>, indices: map<nat, nat>, id: nat, rt: ClusterRuntime)
    requires MapsTo(clusters, objects, indices)
    ensures MapsTo(clusters[id := rt], objects + [rt], indices[id := |objects|])
  {
  }

  /** Stopping one object is closing its runtime. */
  method StopMirrored(ghost objects: seq<ClusterRuntime>, ghost runtimes: seq<Runtime>, ghost i: nat, rt: ClusterRuntime)
    requires Mirrors(objects, runtimes) && i < |objects| && rt == objects[i] && runtimes[i].closes == 0
    modifies rt
    ensures Mirrors(objects, runtimes[i := CloseOnce(runtimes[i])])
  {
    rt.StopOnce();
  }

  function ClosedRuntimes(runtimes: seq<Runtime>, closed: set<nat>): seq<Runtime> {
    seq(|runtimes|, i requires 0 <= i < |runtimes| => ClosedIf(runtimes[i], i in closed))
  }

  lemma NothingClosedYet(runtimes: seq<Runtime>)
    ensures ClosedRuntimes(runtimes, {}) == runtimes
  {
  }

  lemma CloseOneMore(runtimes: seq<Runtime>, closed: set<nat>, i: nat)
    requires i < |runtimes| && i !in closed
    ensures ClosedRuntimes(runtimes, closed + {i}) == ClosedRuntimes(runtimes, closed)[i := CloseOnce(runtimes[i])]
  {
  }

  lemma RestWithout(clusters: map<nat, ClusterRuntime>, objects: seq<ClusterRuntime>, s: State, closed: set<nat>, id: nat)
    requires OpenEntries(s) && MapsToRest(clusters, objects, s.clusters, closed) && id in clusters
    ensures MapsToRest(clusters - {id}, objects, s.clusters, closed + {s.clusters[id]})
  {
  }

  lemma EnsureCreates(s: State, id: nat, rollout: bool, r: Runtime)
    requires id !in s.clusters && r == Runtime(id, rollout, true, 0, {}, false)
    ensures Next(s, Ensure(id, Some(rollout))).runtimes == s.runtimes + [r]
    ensures Next(s, Ensure(id, Some(rollout))).clusters == s.clusters[id := |s.runtimes|]
  {
  }

  lemma NothingTakenYet(clusters: map<nat, ClusterRuntime>, objects: seq<ClusterRuntime>, indices: map<nat, nat>)
    requires MapsTo(clusters, objects, indices)
    ensures MapsToRest(clusters, objects, indices, {})
  {
  }

  /** With the map emptied, all of StopAll is done. */
  lemma StopAllCloses(s: State, closed: set<nat>, objects: seq<ClusterRuntime>)
    requires closed <= s.clusters.Values && MapsToRest(map[], objects, s.clusters, closed)
    ensures MapsTo(map[], objects, Next(s, StopAll).clusters)
    ensures Next(s, StopAll).runtimes == ClosedRuntimes(s.runtimes, closed)
  {
    forall i | i in s.clusters.Values ensures i in closed {
      var id :| id in s.clusters && s.clusters[id] == i;
    }
  }

  function ClosedIf(r: Runtime, closed: bool): Runtime {
    if closed then CloseOnce(r) else r
  }

  function StopActions(s: State, id: nat): seq<Action> {
    if id in s.clusters then [Remove(id), Close(s.clusters[id])] else [Remove(id)]
  }
}

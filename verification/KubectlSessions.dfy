// Reference counts of kubectl terminal pods: WebSocket connections count themselves in and out of activeSessions
// while a cleanup worker looks there before it deletes an idle pod. Each section under sessionsMutex is one step; the
// delete call of the worker, outside the lock, is another.

module KubectlSessions {
  import opened Wrappers
  import opened GoStrings

  const POD_PREFIX := "kubepolaris-kubectl-"
  const IDLE_TIMEOUT_SECONDS := 3600

  function PodName(userId: nat, permissionType: string): string {
    POD_PREFIX + Decimal(userId) + "-" + permissionType
  }

  /** The key of a connection holds the cluster ID as the client wrote it ... */
  function SessionKey(clusterIDStr: string, podName: string): string {
    clusterIDStr + "-" + podName
  }

  /** ... the key of the cleanup worker the same ID as formatted from the number. */
  function CleanupKey(cluster: nat, podName: string): string {
    SessionKey(Decimal(cluster), podName)
  }

  // ---------------------------------------------------------------- keys

  /** A run of digits followed by '-' ends where the '-' is. */
  lemma DigitsBeforeDash(a: string, x: string, b: string, y: string)
    requires AllDigits(a) && AllDigits(b) && a + "-" + x == b + "-" + y
    ensures a == b && x == y
  {
    var s := a + "-" + x;
    assert s[|a|] == '-' && s[|b|] == '-';
    assert s[..|a|] == a && s[..|b|] == b;
    assert s[|a| + 1..] == x && s[|b| + 1..] == y;
    assert forall i | 0 <= i < |a| :: s[i] == a[i];
    assert forall i | 0 <= i < |b| :: s[i] == b[i];
  }

  /** No two of cluster ID string, user and permission type share a key. */
  lemma SessionKeyIsInjective(c: string, u: nat, p: string, c': string, u': nat, p': string)
    requires ParseUint32(c).Some? && ParseUint32(c').Some?
    requires SessionKey(c, PodName(u, p)) == SessionKey(c', PodName(u', p'))
    ensures c == c' && u == u' && p == p'
  {
    DigitsBeforeDash(c, PodName(u, p), c', PodName(u', p'));
    var tail, tail' := Decimal(u) + "-" + p, Decimal(u') + "-" + p';
    assert PodName(u, p) == POD_PREFIX + tail && PodName(u', p') == POD_PREFIX + tail';
    assert (POD_PREFIX + tail)[|POD_PREFIX|..] == tail && (POD_PREFIX + tail')[|POD_PREFIX|..] == tail';
    DigitsBeforeDash(Decimal(u), p, Decimal(u'), p');
    DecimalInjective(u, u');
  }

  /** The two key formats agree exactly for a client that writes the cluster ID in canonical decimal. */
  lemma CleanupKeyMatches(clusterIDStr: string, podName: string, cluster: nat, pod: string)
    requires ParseUint32(clusterIDStr).Some?
    ensures SessionKey(clusterIDStr, podName) == CleanupKey(cluster, pod)
       <==> podName == pod && ParseUint32(clusterIDStr) == Some(cluster) && Canonical(clusterIDStr)
  {
    if SessionKey(clusterIDStr, podName) == CleanupKey(cluster, pod) {
      DigitsBeforeDash(clusterIDStr, podName, Decimal(cluster), pod);
    }
    if Canonical(clusterIDStr) {
      DecimalOfDigits(clusterIDStr);
    }
  }

  // ---------------------------------------------------------------- the step system

  datatype Stage = Preparing | Counted | Closed

  datatype Connection = Connection(clusterIDStr: string, podName: string, stage: Stage) {
    function Key(): string {
      SessionKey(clusterIDStr, podName)
    }
  }

  datatype Choice = Choice(cluster: nat, podName: string)

  /** `chosen` is what the worker has chosen and not yet deleted; `lost` are the terminals whose pod the worker deleted
      while they were counted. */
  datatype State = State(active: map<string, int>, connections: map<nat, Connection>, chosen: Option<Choice>, lost: set<nat>)

  const INITIAL := State(map[], map[], None, {})

  datatype Activity = Missing | Unparsable | IdleSeconds(seconds: int)

  /** Connect: the upgrade succeeded. Activate: the pod runs. Disconnect: the deferred function, at any stage.
      ReadCount: the worker reads the count of one pod and decides. DeletePod: it carries the decision out. */
  datatype Action =
    | Connect(conn: nat, clusterIDStr: string, userId: nat, permissionType: string)
    | Activate(conn: nat)
    | Disconnect(conn: nat)
    | ReadCount(cluster: nat, podName: string, activity: Activity)
    | DeletePod

  /** Indexing a Go map: an absent key reads as 0. */
  function Lookup(m: map<string, int>, key: string): int {
    if key in m then m[key] else 0
  }

  function Increment(m: map<string, int>, key: string): map<string, int> {
    m[key := Lookup(m, key) + 1]
  }

  function Decrement(m: map<string, int>, key: string): map<string, int> {
    var n := Lookup(m, key) - 1;
    if n <= 0 then m - {key} else m[key := n]
  }

  predicate Enabled(s: State, a: Action) {
    match a
    case Connect(conn, clusterIDStr, _, _) => conn !in s.connections && ParseUint32(clusterIDStr).Some?
    case Activate(conn) => conn in s.connections && s.connections[conn].stage == Preparing
    case Disconnect(conn) => conn in s.connections && s.connections[conn].stage != Closed
    case ReadCount(_, _, _) => s.chosen == None
    case DeletePod => s.chosen.Some?
  }

  /** The worker's decision at its read. */
  predicate Chooses(active: map<string, int>, cluster: nat, podName: string, activity: Activity) {
    && Lookup(active, CleanupKey(cluster, podName)) <= 0
    && activity.IdleSeconds? && activity.seconds > IDLE_TIMEOUT_SECONDS
  }

  /** Connection c is an open, counted terminal on this pod of this cluster. */
  predicate Uses(c: Connection, cluster: nat, podName: string) {
    c.stage == Counted && c.podName == podName && ParseUint32(c.clusterIDStr) == Some(cluster)
  }

  function Users(s: State, choice: Choice): set<nat> {
    set conn | conn in s.connections && Uses(s.connections[conn], choice.cluster, choice.podName)
  }

  function Next(s: State, a: Action): State
    requires Enabled(s, a)
  {
    match a
    case Connect(conn, clusterIDStr, userId, permissionType) =>
      s.(connections := s.connections[conn := Connection(clusterIDStr, PodName(userId, permissionType), Preparing)])
    case Activate(conn) =>
      var c := s.connections[conn];
      s.(active := Increment(s.active, c.Key()), connections := s.connections[conn := c.(stage := Counted)])
    case Disconnect(conn) =>
      var c := s.connections[conn];
      s.(active := if c.stage == Counted then Decrement(s.active, c.Key()) else s.active,
         connections := s.connections[conn := c.(stage := Closed)])
    case ReadCount(cluster, podName, activity) =>
      if Chooses(s.active, cluster, podName, activity) then s.(chosen := Some(Choice(cluster, podName))) else s
    case DeletePod =>
      s.(chosen := None, lost := s.lost + Users(s, s.chosen.value))
  }

  /** States of every interleaving of any number of connections and the worker. */
  ghost predicate Run(states: seq<State>, actions: seq<Action>) {
    && |states| == |actions| + 1 && states[0] == INITIAL
    && forall i | 0 <= i < |actions| :: Enabled(states[i], actions[i]) && states[i + 1] == Next(states[i], actions[i])
  }

  // ---------------------------------------------------------------- the counts are right

  predicate Counts(c: Connection, key: string) {
    c.stage == Counted && c.Key() == key
  }

  function CountedOn(connections: map<nat, Connection>, key: string): set<nat> {
    set conn | conn in connections && Counts(connections[conn], key)
  }

  ghost predicate Inv(s: State) {
    && (forall key :: Lookup(s.active, key) == |CountedOn(s.connections, key)|)
    && (forall key | key in s.active :: s.active[key] > 0)
    && (forall conn | conn in s.connections :: ParseUint32(s.connections[conn].clusterIDStr).Some?)
  }

  /** Changing one connection adds it to, or removes it from, the counted ones of its key alone. */
  lemma CountedAfter(connections: map<nat, Connection>, conn: nat, new': Connection, key: string)
    requires conn in connections
    ensures |CountedOn(connections[conn := new'], key)|
         == |CountedOn(connections, key)| - (if Counts(connections[conn], key) then 1 else 0) + (if Counts(new', key) then 1 else 0)
  {
    var before, after := CountedOn(connections, key), CountedOn(connections[conn := new'], key);
    forall x ensures x in after - {conn} <==> x in before - {conn} {
    }
    assert after - {conn} == before - {conn};
    SizeWithout(before, conn);
    SizeWithout(after, conn);
  }

  lemma SizeWithout(s: set<nat>, x: nat)
    ensures |s - {x}| == |s| - if x in s then 1 else 0
  {
    if x !in s {
      assert s - {x} == s;
    }
  }

  lemma InvPreserved(s: State, a: Action)
    requires Inv(s) && Enabled(s, a)
    ensures Inv(Next(s, a))
  {
    var t := Next(s, a);
    forall key ensures Lookup(t.active, key) == |CountedOn(t.connections, key)| {
      match a
      case Connect(conn, _, _, _) =>
        assert CountedOn(t.connections, key) == CountedOn(s.connections, key);
      case Activate(conn) =>
        CountedAfter(s.connections, conn, s.connections[conn].(stage := Counted), key);
      case Disconnect(conn) =>
        CountedAfter(s.connections, conn, s.connections[conn].(stage := Closed), key);
        assert s.connections[conn].stage == Counted ==> conn in CountedOn(s.connections, s.connections[conn].Key());
      case ReadCount(_, _, _) =>
      case DeletePod =>
    }
  }

  /** In every interleaving: activeSessions[k] is the number of counted, still-open connections on k, and a key is
      present exactly while that number is positive. */
  lemma {:induction false} CountsAreRight(states: seq<State>, actions: seq<Action>, key: string)
    requires Run(states, actions)
    ensures var s := states[|actions|];
            && Inv(s)
            && (key in s.active <==> CountedOn(s.connections, key) != {})
            && (key in s.active ==> s.active[key] == |CountedOn(s.connections, key)|)
  {
    var n := |actions|;
    if n == 0 {
      assert forall k :: CountedOn(states[0].connections, k) == {};
    } else {
      CountsAreRight(states[..n], actions[..n - 1], key);
      InvPreserved(states[n - 1], actions[n - 1]);
    }
  }

  /** The terminal was opened under this key and its pod came up; and the client is still there. */
  ghost predicate OpenTerminal(actions: seq<Action>, conn: nat, key: string) {
    && (exists clusterIDStr: string, userId, permissionType ::
          Connect(conn, clusterIDStr, userId, permissionType) in actions
          && key == clusterIDStr + "-" + ("kubepolaris-kubectl-" + Decimal(userId) + "-" + permissionType))
    && Activate(conn) in actions && Disconnect(conn) !in actions
  }

  /** The stage of a connection is what was done about it. */
  ghost predicate Follows(s: State, actions: seq<Action>, conn: nat) {
    if conn !in s.connections
    then Activate(conn) !in actions && Disconnect(conn) !in actions
         && forall c: string, u: nat, p: string :: Connect(conn, c, u, p) !in actions
    else
      && (exists c: string, u: nat, p: string :: WasConnected(actions, conn, c, u, p, s.connections[conn]))
      && (forall c: string, u: nat, p: string | Connect(conn, c, u, p) in actions :: c == s.connections[conn].clusterIDStr && PodName(u, p) == s.connections[conn].podName)
      && (s.connections[conn].stage == Closed <==> Disconnect(conn) in actions)
      && (s.connections[conn].stage == Counted <==> Activate(conn) in actions && Disconnect(conn) !in actions)
  }

  ghost predicate WasConnected(actions: seq<Action>, conn: nat, clusterIDStr: string, userId: nat, permissionType: string, c: Connection) {
    Connect(conn, clusterIDStr, userId, permissionType) in actions && c.clusterIDStr == clusterIDStr && c.podName == PodName(userId, permissionType)
  }

  lemma FollowsStep(s: State, actions: seq<Action>, a: Action, conn: nat)
    requires Enabled(s, a) && Follows(s, actions, conn)
    ensures Follows(Next(s, a), actions + [a], conn)
  {
    var t, more := Next(s, a), actions + [a];
    assert forall b :: b in more <==> b in actions || b == a;
    if conn in s.connections {
      var c: string, u: nat, p: string :| WasConnected(actions, conn, c, u, p, s.connections[conn]);
      assert WasConnected(more, conn, c, u, p, t.connections[conn]);
    } else if a.Connect? && a.conn == conn {
      assert WasConnected(more, conn, a.clusterIDStr, a.userId, a.permissionType, t.connections[conn]);
    }
  }

  lemma {:induction false} RunFollows(states: seq<State>, actions: seq<Action>, conn: nat)
    requires Run(states, actions)
    ensures Follows(states[|actions|], actions, conn)
  {
    var n := |actions|;
    if n > 0 {
      RunFollows(states[..n], actions[..n - 1], conn);
      assert actions == actions[..n - 1] + [actions[n - 1]];
      FollowsStep(states[n - 1], actions[..n - 1], actions[n - 1], conn);
    }
  }

  /** In every interleaving, read off what happened and nothing else: the count of a key is the number of terminals that were
      connected under it and activated and have not been disconnected. */
  lemma CountIsOpenTerminals(states: seq<State>, actions: seq<Action>, key: string) returns (open: set<nat>)
    requires Run(states, actions)
    ensures forall conn :: conn in open <==> OpenTerminal(actions, conn, key)
    ensures Lookup(states[|actions|].active, key) == |open|
    ensures key in states[|actions|].active <==> open != {}
  {
    var s := states[|actions|];
    CountsAreRight(states, actions, key);
    open := CountedOn(s.connections, key);
    forall conn: nat ensures conn in open <==> OpenTerminal(actions, conn, key) {
      RunFollows(states, actions, conn);
      KeyWrittenOut(s, actions, conn, key);
    }
  }

  lemma KeyWrittenOut(s: State, actions: seq<Action>, conn: nat, key: string)
    requires Follows(s, actions, conn)
    ensures conn in CountedOn(s.connections, key) <==> OpenTerminal(actions, conn, key)
  {
    if conn in s.connections {
      var c: string, u: nat, p: string :| WasConnected(actions, conn, c, u, p, s.connections[conn]);
      assert Connect(conn, c, u, p) in actions;
      assert s.connections[conn].Key() == c + "-" + ("kubepolaris-kubectl-" + Decimal(u) + "-" + p);
    }
  }

  /** When all connections are closed nothing is left behind. */
  lemma ClosedSessionsLeaveNothing(states: seq<State>, actions: seq<Action>)
    requires Run(states, actions)
    requires forall conn | conn in states[|actions|].connections :: states[|actions|].connections[conn].stage == Closed
    ensures states[|actions|].active == map[]
  {
    var s := states[|actions|];
    forall key ensures key !in s.active {
      CountsAreRight(states, actions, key);
    }
  }

  // ---------------------------------------------------------------- what the worker chooses

  /** In every interleaving, the decision to delete is taken exactly for a pod that has been idle for over an hour and
      that no counted connection uses under the canonical form of its cluster's ID. */
  lemma CleanupDecision(states: seq<State>, actions: seq<Action>, cluster: nat, podName: string, activity: Activity)
    requires Run(states, actions)
    ensures var s := states[|actions|];
            Chooses(s.active, cluster, podName, activity) <==>
              && activity.IdleSeconds? && activity.seconds > 3600
              && !exists conn :: conn in s.connections && UsesCanonically(s.connections[conn], cluster, podName)
  {
    var s := states[|actions|];
    var key := CleanupKey(cluster, podName);
    CountsAreRight(states, actions, key);
    forall conn | conn in s.connections
      ensures conn in CountedOn(s.connections, key) <==> UsesCanonically(s.connections[conn], cluster, podName)
    {
      var c := s.connections[conn];
      CleanupKeyMatches(c.clusterIDStr, c.podName, cluster, podName);
    }
  }

  predicate UsesCanonically(c: Connection, cluster: nat, podName: string) {
    Uses(c, cluster, podName) && Canonical(c.clusterIDStr)
  }

  // ---------------------------------------------------------------- what the worker deletes

  lemma RunPrefix(states: seq<State>, actions: seq<Action>, n: nat)
    requires Run(states, actions) && n <= |actions|
    ensures Run(states[..n + 1], actions[..n])
  {
  }

  /** The read at i chose what the delete at j carries out. */
  ghost predicate Chose(states: seq<State>, actions: seq<Action>, i: nat, j: nat, choice: Choice)
    requires Run(states, actions)
  {
    && i < j < |actions| && actions[j] == DeletePod && states[j].chosen == Some(choice)
    && actions[i].ReadCount? && actions[i].cluster == choice.cluster && actions[i].podName == choice.podName
    && Chooses(states[i].active, choice.cluster, choice.podName, actions[i].activity)
    && (forall k | i < k < j :: !actions[k].ReadCount? && !actions[k].DeletePod?)
  }

  /** Every choice still open was made by the last read. */
  lemma {:induction false} ChoiceHasARead(states: seq<State>, actions: seq<Action>, n: nat) returns (i: nat)
    requires Run(states, actions) && n <= |actions| && states[n].chosen.Some?
    ensures i < n && actions[i].ReadCount?
    ensures states[n].chosen.value == Choice(actions[i].cluster, actions[i].podName)
    ensures Chooses(states[i].active, actions[i].cluster, actions[i].podName, actions[i].activity)
    ensures forall k | i < k < n :: !actions[k].ReadCount? && !actions[k].DeletePod?
  {
    assert states[n] == Next(states[n - 1], actions[n - 1]);
    if actions[n - 1].ReadCount? {
      i := n - 1;
    } else {
      i := ChoiceHasARead(states, actions, n - 1);
    }
  }

  /** A connection counted at j and not at i was activated in between. */
  lemma {:induction false} CountedSince(states: seq<State>, actions: seq<Action>, i: nat, j: nat, conn: nat) returns (k: nat)
    requires Run(states, actions) && i <= j <= |actions|
    requires conn in states[j].connections && states[j].connections[conn].stage == Counted
    requires conn !in states[i].connections || states[i].connections[conn].stage != Counted
    ensures i <= k < j && actions[k] == Activate(conn)
  {
    assert states[j] == Next(states[j - 1], actions[j - 1]);
    if actions[j - 1] == Activate(conn) {
      k := j - 1;
    } else {
      k := CountedSince(states, actions, i, j - 1, conn);
    }
  }

  /** A connection keeps its cluster ID and its pod, and is never counted again once closed or lost its turn. */
  lemma {:induction false} ConnectionKeepsKey(states: seq<State>, actions: seq<Action>, i: nat, j: nat, conn: nat)
    requires Run(states, actions) && i <= j <= |actions| && conn in states[i].connections
    ensures conn in states[j].connections
    ensures states[j].connections[conn].clusterIDStr == states[i].connections[conn].clusterIDStr
    ensures states[j].connections[conn].podName == states[i].connections[conn].podName
    ensures states[i].connections[conn].stage == Closed ==> states[j].connections[conn].stage == Closed
    ensures states[i].connections[conn].stage == Counted ==> states[j].connections[conn].stage != Preparing
    decreases j
  {
    if i < j {
      ConnectionKeepsKey(states, actions, i, j - 1, conn);
      assert states[j] == Next(states[j - 1], actions[j - 1]);
    }
  }

  /** Connection conn was activated between the read at i and the delete at j. */
  ghost predicate ActivatedBetween(actions: seq<Action>, i: nat, j: nat, conn: nat)
    requires j <= |actions|
  {
    exists k :: i < k < j && actions[k] == Activate(conn)
  }

  /** Some Activate on this key since the read at i is still open at j. */
  ghost predicate ActivatedAndOpen(states: seq<State>, actions: seq<Action>, i: nat, j: nat, key: string)
    requires j <= |actions| && j < |states|
  {
    exists k :: i < k < j && actions[k].Activate? && actions[k].conn in states[j].connections
                && Counts(states[j].connections[actions[k].conn], key)
  }

  lemma CanonicalUseIsCount(states: seq<State>, actions: seq<Action>, j: nat, conn: nat, choice: Choice)
    requires Run(states, actions) && j <= |actions| && conn in states[j].connections
    ensures UsesCanonically(states[j].connections[conn], choice.cluster, choice.podName)
       <==> Counts(states[j].connections[conn], CleanupKey(choice.cluster, choice.podName))
  {
    RunPrefix(states, actions, j);
    CountsAreRight(states[..j + 1], actions[..j], "");
    var c := states[j].connections[conn];
    CleanupKeyMatches(c.clusterIDStr, c.podName, choice.cluster, choice.podName);
  }

  /** For all runs: at the delete, a terminal with a canonical cluster ID is on the pod if and only if some Activate on
      the worker's key since the read is still open; and each such terminal was activated since the read. */
  lemma UsedAtDelete(states: seq<State>, actions: seq<Action>, i: nat, j: nat, choice: Choice)
    requires Run(states, actions) && Chose(states, actions, i, j, choice)
    ensures forall conn | conn in states[j].connections && UsesCanonically(states[j].connections[conn], choice.cluster, choice.podName) ::
      ActivatedBetween(actions, i, j, conn)
    ensures (exists conn :: conn in states[j].connections && UsesCanonically(states[j].connections[conn], choice.cluster, choice.podName))
       <==> ActivatedAndOpen(states, actions, i, j, CleanupKey(choice.cluster, choice.podName))
  {
    forall conn | conn in states[j].connections && UsesCanonically(states[j].connections[conn], choice.cluster, choice.podName)
      ensures ActivatedBetween(actions, i, j, conn)
      ensures ActivatedAndOpen(states, actions, i, j, CleanupKey(choice.cluster, choice.podName))
    {
      var k := UserIsNew(states, actions, i, j, choice, conn);
      CanonicalUseIsCount(states, actions, j, conn, choice);
    }
    if ActivatedAndOpen(states, actions, i, j, CleanupKey(choice.cluster, choice.podName)) {
      var k :| i < k < j && actions[k].Activate? && actions[k].conn in states[j].connections
               && Counts(states[j].connections[actions[k].conn], CleanupKey(choice.cluster, choice.podName));
      CanonicalUseIsCount(states, actions, j, actions[k].conn, choice);
    }
  }

  lemma UserIsNew(states: seq<State>, actions: seq<Action>, i: nat, j: nat, choice: Choice, conn: nat) returns (k: nat)
    requires Run(states, actions) && Chose(states, actions, i, j, choice)
    requires conn in states[j].connections && UsesCanonically(states[j].connections[conn], choice.cluster, choice.podName)
    ensures i < k < j && actions[k] == Activate(conn)
  {
    RunPrefix(states, actions, i);
    CleanupDecision(states[..i + 1], actions[..i], choice.cluster, choice.podName, actions[i].activity);
    if conn in states[i].connections {
      ConnectionKeepsKey(states, actions, i, j, conn);
      assert !UsesCanonically(states[i].connections[conn], choice.cluster, choice.podName);
    }
    k := CountedSince(states, actions, i, j, conn);
  }

  /** The delete itself: it loses exactly the terminals then counted on the pod, under whatever spelling. */
  lemma DeleteLosesUsers(states: seq<State>, actions: seq<Action>, j: nat, conn: nat)
    requires Run(states, actions) && j < |actions| && actions[j] == DeletePod
    ensures states[j].chosen.Some?
    ensures conn in states[j + 1].lost <==>
      || conn in states[j].lost
      || (conn in states[j].connections && Uses(states[j].connections[conn], states[j].chosen.value.cluster, states[j].chosen.value.podName))
  {
    assert states[j + 1] == Next(states[j], actions[j]);
  }

  /** So a pod in use is kept: a terminal with a canonical cluster ID that was counted before the worker's read is never
      lost to the delete that follows the read; and if no terminal was activated in between, none with a canonical ID is. */
  lemma UsedPodIsKept(states: seq<State>, actions: seq<Action>, i: nat, j: nat, choice: Choice, conn: nat)
    requires Run(states, actions) && Chose(states, actions, i, j, choice)
    requires conn in states[j].connections && Canonical(states[j].connections[conn].clusterIDStr)
    requires (conn in states[i].connections && states[i].connections[conn].stage == Counted) || !ActivatedBetween(actions, i, j, conn)
    ensures conn in states[j + 1].lost <==> conn in states[j].lost
  {
    UsedAtDelete(states, actions, i, j, choice);
    DeleteLosesUsers(states, actions, j, conn);
    if conn in states[i].connections && states[i].connections[conn].stage == Counted && ActivatedBetween(actions, i, j, conn) {
      var k :| i < k < j && actions[k] == Activate(conn);
      ConnectionKeepsKey(states, actions, i, k, conn);
      assert Enabled(states[k], actions[k]);
    }
  }

  /** How connection conn was lost: to the delete at j of what the read at i chose, by an activation in between or by a
      spelling of the cluster ID that the worker does not know. */
  ghost predicate LostTo(states: seq<State>, actions: seq<Action>, conn: nat, i: nat, j: nat, choice: Choice)
    requires Run(states, actions)
  {
    && Chose(states, actions, i, j, choice)
    && conn in states[j].connections && Uses(states[j].connections[conn], choice.cluster, choice.podName)
    && (ActivatedBetween(actions, i, j, conn) || !Canonical(states[j].connections[conn].clusterIDStr))
  }

  /** Over every run, these are the ways in which a terminal loses its pod to the worker, and the only ones. */
  lemma {:induction false} EveryLossIsARaceOrASpelling(states: seq<State>, actions: seq<Action>, conn: nat, n: nat)
    requires Run(states, actions) && n <= |actions|
    ensures conn in states[n].lost <==> exists i: nat, j: nat, choice :: j < n && LostTo(states, actions, conn, i, j, choice)
    decreases n
  {
    if n > 0 {
      EveryLossIsARaceOrASpelling(states, actions, conn, n - 1);
      if actions[n - 1] == DeletePod {
        DeleteLosesUsers(states, actions, n - 1, conn);
        LostAtDelete(states, actions, conn, n - 1);
      } else {
        assert states[n].lost == states[n - 1].lost by {
          assert states[n] == Next(states[n - 1], actions[n - 1]);
        }
        forall i: nat, j: nat, choice | j < n && LostTo(states, actions, conn, i, j, choice) ensures j < n - 1 {
        }
      }
    }
  }

  lemma LostAtDelete(states: seq<State>, actions: seq<Action>, conn: nat, j: nat)
    requires Run(states, actions) && j < |actions| && actions[j] == DeletePod && states[j].chosen.Some?
    ensures (exists i: nat, choice :: LostTo(states, actions, conn, i, j, choice)) <==>
      conn in states[j].connections && Uses(states[j].connections[conn], states[j].chosen.value.cluster, states[j].chosen.value.podName)
  {
    var choice := states[j].chosen.value;
    if conn in states[j].connections && Uses(states[j].connections[conn], choice.cluster, choice.podName) {
      var i := ChoiceHasARead(states, actions, j);
      assert Chose(states, actions, i, j, choice);
      UsedAtDelete(states, actions, i, j, choice);
      assert LostTo(states, actions, conn, i, j, choice);
    }
  }

  // ---------------------------------------------------------------- witnesses of both

  lemma OneMoreStep(states: seq<State>, actions: seq<Action>, a: Action) returns (longer: seq<State>)
    requires Run(states, actions) && Enabled(states[|actions|], a)
    ensures Run(longer, actions + [a]) && longer[|actions| + 1] == Next(states[|actions|], a)
    ensures longer == states + [Next(states[|actions|], a)]
  {
    longer := states + [Next(states[|actions|], a)];
  }

  ghost predicate Loses(states: seq<State>, actions: seq<Action>, conn: nat) {
    Run(states, actions) && conn in states[|actions|].lost
  }

  /** The race, with any spelling of any cluster ID: connecting between the worker's read and its delete. */
  lemma ConnectingDuringCleanupLosesThePod(clusterIDStr: string, cluster: nat, userId: nat, permissionType: string)
    requires ParseUint32(clusterIDStr) == Some(cluster)
    ensures exists states: seq<State>, actions: seq<Action> :: Loses(states, actions, 0) && Connect(0, clusterIDStr, userId, permissionType) in actions
  {
    var pod := PodName(userId, permissionType);
    var choice := Choice(cluster, pod);
    var read := ReadCount(cluster, pod, IdleSeconds(IDLE_TIMEOUT_SECONDS + 1));
    var connect := Connect(0, clusterIDStr, userId, permissionType);
    var r0: seq<State> := [INITIAL];
    var r1 := OneMoreStep(r0, [], read);
    assert r1[1] == State(map[], map[], Some(choice), {});
    var r2 := OneMoreStep(r1, [] + [read], connect);
    assert r2[2] == State(map[], map[0 := Connection(clusterIDStr, pod, Preparing)], Some(choice), {});
    var r3 := OneMoreStep(r2, [] + [read] + [connect], Activate(0));
    assert 0 in Users(r3[3], choice);
    var r4 := OneMoreStep(r3, [] + [read] + [connect] + [Activate(0)], DeletePod);
    var actions := [] + [read] + [connect] + [Activate(0)] + [DeletePod];
    assert actions[1] == connect && Loses(r4, actions, 0);
  }

  /** The spelling: with any other form of a cluster ID a terminal is lost although it was there before the read. */
  lemma OtherSpellingsHideAConnection(clusterIDStr: string, cluster: nat, userId: nat, permissionType: string)
    requires ParseUint32(clusterIDStr) == Some(cluster) && !Canonical(clusterIDStr)
    ensures exists states: seq<State>, actions: seq<Action> ::
      Loses(states, actions, 0) && actions[..2] == [Connect(0, clusterIDStr, userId, permissionType), Activate(0)]
  {
    var pod := PodName(userId, permissionType);
    var first := [Connect(0, clusterIDStr, userId, permissionType), Activate(0)];
    var read := ReadCount(cluster, pod, IdleSeconds(IDLE_TIMEOUT_SECONDS + 1));
    var r0: seq<State> := [INITIAL];
    var r1 := OneMoreStep(r0, [], first[0]);
    var r2 := OneMoreStep(r1, [] + [first[0]], first[1]);
    assert [] + [first[0]] + [first[1]] == first;
    assert r2[2].connections == map[0 := Connection(clusterIDStr, pod, Counted)];
    CleanupDecision(r2, first, cluster, pod, read.activity);
    assert 0 in Users(r2[2], Choice(cluster, pod));
    var r3 := OneMoreStep(r2, first, read);
    var r4 := OneMoreStep(r3, first + [read], DeletePod);
    var actions := first + [read] + [DeletePod];
    assert actions[..2] == first && Loses(r4, actions, 0);
  }

  lemma LeadingZerosAreSuchASpelling()
    ensures ParseUint32("007") == Some(7) && !Canonical("007")
  {
    assert "007"[..2] == "00" && "00"[..1] == "0" && "0"[..0] == "";
    assert DigitsValue("0") == 0;
    assert DigitsValue("00") == 0;
  }

  // ---------------------------------------------------------------- the handler object

  datatype ListedPod = ListedPod(name: string, lastActivity: Activity)

  class KubectlPodTerminalHandler {
    var activeSessions: map<string, int>
    ghost var connections: map<nat, Connection>
    ghost var chosen: Option<Choice>
    ghost var lost: set<nat>

    ghost function Abstract(): State
      reads this
    {
      State(activeSessions, connections, chosen, lost)
    }

    ghost predicate Valid()
      reads this
    {
      Inv(Abstract())
    }

    constructor ()
      ensures Valid() && Abstract() == INITIAL
    {
      activeSessions, connections, chosen, lost := map[], map[], None, {};
      new;
      assert forall key :: CountedOn(connections, key) == {};
    }

    /** Everything up to the upgrade; None is the rejected cluster ID. */
    method Connect(clusterIDStr: string, userID: nat, permissionType: string, ghost conn: nat) returns (sessionKey: Option<string>)
      requires Valid() && conn !in connections
      modifies this
      ensures Valid()
      ensures sessionKey == None <==> ParseUint32(clusterIDStr) == None
      ensures sessionKey == None ==> Abstract() == old(Abstract())
      ensures sessionKey.Some? ==>
        && Abstract() == Next(old(Abstract()), Action.Connect(conn, clusterIDStr, userID, permissionType))
        && sessionKey.value == connections[conn].Key()
    {
      if ParseUint32(clusterIDStr) == None {
        return None;
      }
      InvPreserved(Abstract(), Action.Connect(conn, clusterIDStr, userID, permissionType));
      var podName := PodName(userID, permissionType);
      connections := connections[conn := Connection(clusterIDStr, podName, Preparing)];
      return Some(clusterIDStr + "-" + podName);
    }

    method Activate(sessionKey: string, ghost conn: nat) returns (sessionCountAdded: bool)
      requires Valid() && Enabled(Abstract(), Action.Activate(conn)) && sessionKey == connections[conn].Key()
      modifies this
      ensures Valid() && sessionCountAdded
      ensures Abstract() == Next(old(Abstract()), Action.Activate(conn))
    {
      InvPreserved(Abstract(), Action.Activate(conn));
      activeSessions := activeSessions[sessionKey := Lookup(activeSessions, sessionKey) + 1];
      connections := connections[conn := connections[conn].(stage := Counted)];
      return true;
    }

    /** The deferred function of a connection. */
    method Disconnect(sessionKey: string, sessionCountAdded: bool, ghost conn: nat)
      requires Valid() && Enabled(Abstract(), Action.Disconnect(conn)) && sessionKey == connections[conn].Key()
      requires sessionCountAdded <==> connections[conn].stage == Counted
      modifies this
      ensures Valid()
      ensures Abstract() == Next(old(Abstract()), Action.Disconnect(conn))
    {
      InvPreserved(Abstract(), Action.Disconnect(conn));
      ghost var before := activeSessions;
      if sessionCountAdded {
        activeSessions := activeSessions[sessionKey := Lookup(activeSessions, sessionKey) - 1];
        if Lookup(activeSessions, sessionKey) <= 0 {
          activeSessions := activeSessions - {sessionKey};
        }
        assert activeSessions == Decrement(before, sessionKey);
      }
      connections := connections[conn := connections[conn].(stage := Closed)];
    }

    /** The body of the worker's loop up to its decision. */
    method ReadCount(clusterID: nat, pod: ListedPod) returns (idle: bool)
      requires Valid() && Enabled(Abstract(), Action.ReadCount(clusterID, pod.name, pod.lastActivity))
      modifies this
      ensures Valid()
      ensures Abstract() == Next(old(Abstract()), Action.ReadCount(clusterID, pod.name, pod.lastActivity))
      ensures idle <==> chosen == Some(Choice(clusterID, pod.name))
    {
      InvPreserved(Abstract(), Action.ReadCount(clusterID, pod.name, pod.lastActivity));
      idle := Decide(Lookup(activeSessions, Decimal(clusterID) + "-" + pod.name), pod.lastActivity);
      if idle {
        chosen := Some(Choice(clusterID, pod.name));
      }
    }

    /** The delete call. */
    ghost method DeletePod()
      requires Valid() && Enabled(Abstract(), Action.DeletePod)
      modifies this
      ensures Valid() && Abstract() == Next(old(Abstract()), Action.DeletePod)
    {
      InvPreserved(Abstract(), Action.DeletePod);
      chosen, lost := None, lost + Users(Abstract(), chosen.value);
    }
  }

  /** The three tests of the loop body, in the order of the source. */
  method Decide(activeCount: int, lastActivity: Activity) returns (idle: bool)
    ensures idle <==> activeCount <= 0 && lastActivity.IdleSeconds? && lastActivity.seconds > IDLE_TIMEOUT_SECONDS
  {
    if activeCount > 0 {
      return false;
    }
    match lastActivity
    case Missing => return false;
    case Unparsable => return false;
    case IdleSeconds(seconds) => return seconds > IDLE_TIMEOUT_SECONDS;
  }

  /** The pass over the pods of one cluster. Connections come and go between the iterations: `activeAt(i)` is what
      activeSessions holds when the lock is taken for pod i. */
  method CleanupClusterIdlePods(clusterID: nat, pods: seq<ListedPod>, activeAt: nat -> map<string, int>) returns (deleted: seq<nat>)
    ensures forall i :: i in deleted <==> 0 <= i < |pods| && Chooses(activeAt(i), clusterID, pods[i].name, pods[i].lastActivity)
    ensures forall a, b | 0 <= a < b < |deleted| :: deleted[a] < deleted[b]
  {
    deleted := [];
    for i := 0 to |pods|
      invariant forall k :: k in deleted <==> 0 <= k < i && Chooses(activeAt(k), clusterID, pods[k].name, pods[k].lastActivity)
      invariant forall a, b | 0 <= a < b < |deleted| :: deleted[a] < deleted[b]
    {
      var idle := Decide(Lookup(activeAt(i), Decimal(clusterID) + "-" + pods[i].name), pods[i].lastActivity);
      assert forall a | 0 <= a < |deleted| :: deleted[a] in deleted;
      if idle {
        deleted := deleted + [i];
      }
    }
  }

  /** The pass as a part of a run: the read for pod i is the step at[i], the reads follow each other without any other read
      of the worker in between, and `activeAt` is what the run has there. */
  ghost predicate PassInRun(states: seq<State>, actions: seq<Action>, at: seq<nat>, clusterID: nat, pods: seq<ListedPod>,
                            activeAt: nat -> map<string, int>)
  {
    && Run(states, actions) && |at| == |pods|
    && (forall i | 0 <= i < |at| :: at[i] < |actions| && activeAt(i) == states[at[i]].active
          && actions[at[i]] == ReadCount(clusterID, pods[i].name, pods[i].lastActivity))
    && (forall i, k | 0 <= i < |at| - 1 && at[i] < k < at[i + 1] :: !actions[k].ReadCount?)
    && (forall i | 0 <= i < |at| - 1 :: at[i] < at[i + 1])
  }

  /** Then the pass decides for each pod what the step decides; and before the next read the worker has deleted that pod, if
      it chose it, and nothing otherwise. */
  lemma PassFollowsTheRun(states: seq<State>, actions: seq<Action>, at: seq<nat>, clusterID: nat, pods: seq<ListedPod>,
                          activeAt: nat -> map<string, int>, i: nat)
    requires PassInRun(states, actions, at, clusterID, pods, activeAt) && i < |pods|
    ensures var choice := Choice(clusterID, pods[i].name);
            && states[at[i] + 1].chosen == (if Chooses(activeAt(i), clusterID, pods[i].name, pods[i].lastActivity) then Some(choice) else None)
            && (i + 1 < |pods| && states[at[i] + 1].chosen == None ==> forall j | at[i] < j < at[i + 1] :: !actions[j].DeletePod?)
            && (i + 1 < |pods| && states[at[i] + 1].chosen.Some? ==>
                  exists j :: at[i] < j < at[i + 1] && Chose(states, actions, at[i], j, choice)
                              && forall k | at[i] < k < at[i + 1] && k != j :: !actions[k].DeletePod?)
  {
    var n := at[i];
    assert Enabled(states[n], actions[n]) && states[n + 1] == Next(states[n], actions[n]);
    if i + 1 < |pods| {
      var m := at[i + 1];
      assert Enabled(states[m], actions[m]);
      if states[n + 1].chosen == None {
        NothingChosen(states, actions, n + 1, m);
      } else {
        var j := ChoiceIsDeleted(states, actions, n + 1, m);
        assert Chose(states, actions, n, j, Choice(clusterID, pods[i].name));
        NothingChosen(states, actions, j + 1, m);
      }
    }
  }

  /** Without a read nothing gets chosen, so nothing is deleted. */
  lemma {:induction false} NothingChosen(states: seq<State>, actions: seq<Action>, n: nat, m: nat)
    requires Run(states, actions) && n <= m <= |actions| && states[n].chosen == None
    requires forall k | n <= k < m :: !actions[k].ReadCount?
    ensures states[m].chosen == None && forall k | n <= k < m :: !actions[k].DeletePod?
    decreases m
  {
    if n < m {
      NothingChosen(states, actions, n, m - 1);
      assert Enabled(states[m - 1], actions[m - 1]) && states[m] == Next(states[m - 1], actions[m - 1]);
    }
  }

  /** What is chosen and no longer is has been deleted. */
  lemma {:induction false} ChoiceIsDeleted(states: seq<State>, actions: seq<Action>, n: nat, m: nat) returns (j: nat)
    requires Run(states, actions) && n <= m <= |actions| && states[n].chosen.Some? && states[m].chosen == None
    requires forall k | n <= k < m :: !actions[k].ReadCount?
    ensures n <= j < m && actions[j].DeletePod? && states[j].chosen == states[n].chosen
    ensures states[j + 1].chosen == None
    ensures forall k | n <= k < j :: !actions[k].DeletePod?
    decreases m - n
  {
    assert Enabled(states[n], actions[n]) && states[n + 1] == Next(states[n], actions[n]);
    if actions[n].DeletePod? {
      j := n;
    } else {
      j := ChoiceIsDeleted(states, actions, n + 1, m);
    }
  }
}

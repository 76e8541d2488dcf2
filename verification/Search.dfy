// The two searches over all clusters of a user: QuickSearch, which stops each resource type at a limit, and
// GlobalSearch, which lists everything and also looks at addresses. Both read one snapshot of the informer caches.

module Search {
  import opened Wrappers
  import opened GoStrings

  /** The result types, which the source keeps as the strings "cluster", "node", "pod" and "workload". */
  datatype ResourceType = OfClusters | OfNodes | OfPods | OfWorkloads

  datatype Kind = Node | Pod | Deployment | StatefulSet | DaemonSet | Rollout

  /** A cached object, reduced to what the searches read. `ip` is the pod IP; `addresses` are those of a node;
      `status` is the phase of a pod; `description` is the text that the result shows. */
  datatype Resource = Resource(name: string, namespace: string, status: string, description: string, ip: string, addresses: seq<string>)

  /** `ensured` says whether EnsureForCluster succeeds; a listing is None when the lister is nil or fails. */
  datatype Cluster = Cluster(id: nat, name: string, status: string, apiServer: string, ensured: bool, listing: Kind -> Option<seq<Resource>>)

  datatype SearchResult = SearchResult(resourceType: ResourceType, id: string, name: string, namespace: string, clusterId: string,
                                       clusterName: string, status: string, description: string, ip: string, kind: string)

  const TYPES := [OfClusters, OfNodes, OfPods, OfWorkloads]

  function KindName(kind: Kind): string {
    match kind
    case Node => ""
    case Pod => ""
    case Deployment => "Deployment"
    case StatefulSet => "StatefulSet"
    case DaemonSet => "DaemonSet"
    case Rollout => "Rollout"
  }

  function Render(cl: Cluster, kind: Kind, x: Resource, ip: string): SearchResult {
    match kind
    case Node => SearchResult(OfNodes, x.name, x.name, "", Decimal(cl.id), cl.name, "Ready", x.description, ip, "")
    case Pod => SearchResult(OfPods, x.name, x.name, x.namespace, Decimal(cl.id), cl.name, x.status, x.description, ip, "")
    case _ => SearchResult(OfWorkloads, x.name, x.name, x.namespace, Decimal(cl.id), cl.name, KindName(kind), x.description, "", KindName(kind))
  }

  function RenderCluster(cl: Cluster): SearchResult {
    SearchResult(OfClusters, Decimal(cl.id), cl.name, "", Decimal(cl.id), cl.name, cl.status, cl.apiServer, "", "")
  }

  predicate Contains(s: string, part: string) {
    LastIndex(s, part) != -1
  }

  /** What is searched for; `lower` is strings.ToLower. */
  datatype Query = Query(text: string, lower: string -> string) {
    predicate Hits(name: string) {
      Contains(lower(name), lower(text))
    }
  }

  // ---------------------------------------------------------------- the exhaustive search

  /** All results in order: what each element contributes, one after the other. */
  function Collect<T>(xs: seq<T>, pick: T -> seq<SearchResult>): seq<SearchResult> {
    if xs == [] then [] else pick(xs[0]) + Collect(xs[1..], pick)
  }

  lemma {:induction false} CollectAppend<T>(xs: seq<T>, ys: seq<T>, pick: T -> seq<SearchResult>)
    ensures Collect(xs + ys, pick) == Collect(xs, pick) + Collect(ys, pick)
  {
    if xs == [] {
      assert xs + ys == ys;
    } else {
      CollectAppend(xs[1..], ys, pick);
      assert (xs + ys)[0] == xs[0] && (xs + ys)[1..] == xs[1..] + ys;
      Regroup(pick(xs[0]), Collect(xs[1..], pick), Collect(ys, pick));
    }
  }

  lemma Regroup<T>(a: seq<T>, b: seq<T>, c: seq<T>)
    ensures a + (b + c) == a + b + c
  {
  }

  lemma CollectSnoc<T>(xs: seq<T>, i: nat, pick: T -> seq<SearchResult>)
    requires i < |xs|
    ensures Collect(xs[..i + 1], pick) == Collect(xs[..i], pick) + pick(xs[i])
  {
    assert xs[..i + 1] == xs[..i] + [xs[i]];
    CollectAppend(xs[..i], [xs[i]], pick);
    assert Collect([xs[i]], pick) == pick(xs[i]) + Collect([], pick);
  }

  function ByName(q: Query, cl: Cluster, kind: Kind, x: Resource): seq<SearchResult> {
    if q.Hits(x.name) then [Render(cl, kind, x, if kind == Pod then x.ip else "")] else []
  }

  function FirstAddress(addresses: seq<string>, text: string): Option<string> {
    if addresses == [] then None
    else if Contains(addresses[0], text) then Some(addresses[0])
    else FirstAddress(addresses[1..], text)
  }

  /** The further result that GlobalSearch adds for an address, case-sensitively. */
  function ByAddress(q: Query, cl: Cluster, kind: Kind, x: Resource): seq<SearchResult> {
    match kind
    case Node =>
      (match FirstAddress(x.addresses, q.text)
       case Some(a) => [Render(cl, Node, x, a)]
       case None => [])
    case Pod => if Contains(x.ip, q.text) then [Render(cl, Pod, x, x.ip)] else []
    case _ => []
  }

  function Listing(cl: Cluster, kind: Kind): seq<Resource> {
    var l := cl.listing(kind);
    if l.Some? then l.value else []
  }

  function NamePick(q: Query, cl: Cluster, kind: Kind): Resource -> seq<SearchResult> {
    x => ByName(q, cl, kind, x)
  }

  function FullPick(q: Query, cl: Cluster, kind: Kind): Resource -> seq<SearchResult> {
    x => ByName(q, cl, kind, x) + ByAddress(q, cl, kind, x)
  }

  function QuickKind(q: Query, cl: Cluster, kind: Kind): seq<SearchResult> {
    Collect(Listing(cl, kind), NamePick(q, cl, kind))
  }

  function GlobalKind(q: Query, cl: Cluster, kind: Kind): seq<SearchResult> {
    Collect(Listing(cl, kind), FullPick(q, cl, kind))
  }

  function ClusterHit(q: Query, cl: Cluster): seq<SearchResult> {
    if q.Hits(cl.name) then [RenderCluster(cl)] else []
  }

  function QuickWorkloads(q: Query, cl: Cluster): seq<SearchResult> {
    QuickKind(q, cl, Deployment) + QuickKind(q, cl, StatefulSet) + QuickKind(q, cl, DaemonSet) + QuickKind(q, cl, Rollout)
  }

  /** All that one cluster contributes to a resource type of the quick search. */
  function QuickType(q: Query, resourceType: ResourceType, cl: Cluster): seq<SearchResult> {
    if !cl.ensured then []
    else match resourceType
      case OfClusters => ClusterHit(q, cl)
      case OfNodes => QuickKind(q, cl, Node)
      case OfPods => QuickKind(q, cl, Pod)
      case OfWorkloads => QuickWorkloads(q, cl)
  }

  function QuickPick(q: Query, resourceType: ResourceType): Cluster -> seq<SearchResult> {
    cl => QuickType(q, resourceType, cl)
  }

  /** All name matches of one type, over the clusters in order. */
  function Exhaustive(q: Query, resourceType: ResourceType, clusters: seq<Cluster>): seq<SearchResult> {
    Collect(clusters, QuickPick(q, resourceType))
  }

  function GlobalWorkloads(q: Query, cl: Cluster): seq<SearchResult> {
    GlobalKind(q, cl, Deployment) + GlobalKind(q, cl, Rollout) + GlobalKind(q, cl, StatefulSet) + GlobalKind(q, cl, DaemonSet)
  }

  function GlobalOf(q: Query, cl: Cluster): seq<SearchResult> {
    if !cl.ensured then []
    else
      GlobalKind(q, cl, Node) + GlobalKind(q, cl, Pod) + GlobalWorkloads(q, cl)
  }

  function ClusterPick(q: Query): Cluster -> seq<SearchResult> {
    cl => ClusterHit(q, cl)
  }

  function GlobalPick(q: Query): Cluster -> seq<SearchResult> {
    cl => GlobalOf(q, cl)
  }

  /** GlobalSearch: clusters by name, also those that cannot be ensured, then their contents. */
  function GlobalResults(q: Query, clusters: seq<Cluster>): seq<SearchResult> {
    Collect(clusters, ClusterPick(q)) + Collect(clusters, GlobalPick(q))
  }

  // ---------------------------------------------------------------- limits

  /** The first `limit` elements; none for a limit that is not positive. */
  function Take<T>(limit: int, s: seq<T>): seq<T> {
    if limit <= 0 then [] else if limit < |s| then s[..limit] else s
  }

  lemma TakeFull<T>(limit: int, s: seq<T>, more: seq<T>)
    requires |Take(limit, s)| >= limit
    ensures Take(limit, s + more) == Take(limit, s)
  {
  }

  lemma TakeOneMore<T>(limit: int, s: seq<T>, more: seq<T>)
    requires |Take(limit, s)| < limit && |more| <= 1
    ensures Take(limit, s + more) == Take(limit, s) + more
  {
  }

  // ---------------------------------------------------------------- QuickSearch

  /** What an early exit leaves out does not matter. */
  lemma EarlyExit(items: seq<Resource>, i: nat, pick: Resource -> seq<SearchResult>, limit: int, found: seq<SearchResult>)
    requires i <= |items| && |Take(limit, found + Collect(items[..i], pick))| >= limit
    ensures Take(limit, found + Collect(items, pick)) == Take(limit, found + Collect(items[..i], pick))
  {
    var before, rest := found + Collect(items[..i], pick), Collect(items[i..], pick);
    assert items == items[..i] + items[i..];
    CollectAppend(items[..i], items[i..], pick);
    TakeFull(limit, before, rest);
    assert found + Collect(items, pick) == before + rest;
  }

  lemma OneStep(items: seq<Resource>, i: nat, pick: Resource -> seq<SearchResult>, limit: int, found: seq<SearchResult>)
    requires i < |items| && |pick(items[i])| <= 1 && |Take(limit, found + Collect(items[..i], pick))| < limit
    ensures Take(limit, found + Collect(items[..i + 1], pick)) == Take(limit, found + Collect(items[..i], pick)) + pick(items[i])
  {
    var before := found + Collect(items[..i], pick);
    CollectSnoc(items, i, pick);
    TakeOneMore(limit, before, pick(items[i]));
    assert found + Collect(items[..i + 1], pick) == before + pick(items[i]);
  }

  /** The scan of one listing with its early exit. `found` are all matches before it. */
  method ScanItems(q: Query, cl: Cluster, kind: Kind, items: seq<Resource>, limit: int, acc: seq<SearchResult>,
                   ghost found: seq<SearchResult>, ghost pick: Resource -> seq<SearchResult>)
    returns (r: seq<SearchResult>)
    requires acc == Take(limit, found)
    requires forall x :: pick(x) == ByName(q, cl, kind, x)
    ensures r == Take(limit, found + Collect(items, pick))
  {
    r := acc;
    assert found + [] == found;
    for i := 0 to |items|
      invariant r == Take(limit, found + Collect(items[..i], pick))
    {
      if |r| >= limit {
        EarlyExit(items, i, pick, limit, found);
        return;
      }
      OneStep(items, i, pick, limit, found);
      if q.Hits(items[i].name) {
        r := r + [Render(cl, kind, items[i], if kind == Pod then items[i].ip else "")];
      }
    }
    assert items[..|items|] == items;
  }

  method ScanListing(q: Query, cl: Cluster, kind: Kind, limit: int, acc: seq<SearchResult>, ghost found: seq<SearchResult>)
    returns (r: seq<SearchResult>)
    requires acc == Take(limit, found)
    ensures r == Take(limit, found + QuickKind(q, cl, kind))
  {
    var listing := cl.listing(kind);
    if listing == None {
      assert found + QuickKind(q, cl, kind) == found;
      return acc;
    }
    r := ScanItems(q, cl, kind, listing.value, limit, acc, found, NamePick(q, cl, kind));
  }

  method ScanUnlessFull(q: Query, cl: Cluster, kind: Kind, limit: int, acc: seq<SearchResult>, ghost found: seq<SearchResult>)
    returns (r: seq<SearchResult>)
    requires acc == Take(limit, found)
    ensures r == Take(limit, found + QuickKind(q, cl, kind))
  {
    r := acc;
    if |acc| < limit {
      r := ScanListing(q, cl, kind, limit, acc, found);
    } else {
      TakeFull(limit, found, QuickKind(q, cl, kind));
    }
  }

  method ScanWorkloads(q: Query, cl: Cluster, limit: int, acc: seq<SearchResult>, ghost found: seq<SearchResult>)
    returns (r: seq<SearchResult>)
    requires acc == Take(limit, found)
    ensures r == Take(limit, found + QuickWorkloads(q, cl))
  {
    ghost var all := QuickWorkloads(q, cl);
    r := acc;
    if |acc| >= limit {
      TakeFull(limit, found, all);
      return;
    }
    ghost var d, s, ds, ro := QuickKind(q, cl, Deployment), QuickKind(q, cl, StatefulSet), QuickKind(q, cl, DaemonSet), QuickKind(q, cl, Rollout);
    r := ScanListing(q, cl, Deployment, limit, r, found);
    r := ScanUnlessFull(q, cl, StatefulSet, limit, r, found + d);
    r := ScanUnlessFull(q, cl, DaemonSet, limit, r, found + d + s);
    r := ScanUnlessFull(q, cl, Rollout, limit, r, found + d + s + ds);
    Reassociate(found, d, s, ds, ro);
  }

  lemma Reassociate<T>(a: seq<T>, b: seq<T>, c: seq<T>, d: seq<T>, e: seq<T>)
    ensures a + b + c + d + e == a + (b + c + d + e)
  {
  }

  predicate IsTyped(results: map<ResourceType, seq<SearchResult>>) {
    OfClusters in results && OfNodes in results && OfPods in results && OfWorkloads in results
  }

  /** Per type, the first `limit` of what `all` says. */
  ghost predicate Holds(results: map<ResourceType, seq<SearchResult>>, limit: int, all: ResourceType -> seq<SearchResult>) {
    && IsTyped(results)
    && results[OfClusters] == Take(limit, all(OfClusters)) && results[OfNodes] == Take(limit, all(OfNodes))
    && results[OfPods] == Take(limit, all(OfPods)) && results[OfWorkloads] == Take(limit, all(OfWorkloads))
  }

  ghost function Sought(q: Query, clusters: seq<Cluster>): ResourceType -> seq<SearchResult> {
    t => Exhaustive(q, t, clusters)
  }

  method SearchClusterName(q: Query, cl: Cluster, limit: int, acc: seq<SearchResult>, ghost found: seq<SearchResult>)
    returns (r: seq<SearchResult>)
    requires acc == Take(limit, found)
    ensures r == Take(limit, found + ClusterHit(q, cl))
  {
    if |acc| >= limit {
      TakeFull(limit, found, ClusterHit(q, cl));
    } else {
      TakeOneMore(limit, found, ClusterHit(q, cl));
    }
    r := acc;
    if |acc| < limit && q.Hits(cl.name) {
      r := r + [RenderCluster(cl)];
    }
  }

  method SearchCluster(q: Query, cl: Cluster, limit: int, typeResults: map<ResourceType, seq<SearchResult>>,
                       ghost all: ResourceType -> seq<SearchResult>, ghost next: ResourceType -> seq<SearchResult>)
    returns (r: map<ResourceType, seq<SearchResult>>)
    requires cl.ensured && Holds(typeResults, limit, all)
    requires forall t :: next(t) == all(t) + QuickType(q, t, cl)
    ensures Holds(r, limit, next)
  {
    var names := SearchClusterName(q, cl, limit, typeResults[OfClusters], all(OfClusters));
    var nodes := ScanUnlessFull(q, cl, Node, limit, typeResults[OfNodes], all(OfNodes));
    var pods := ScanUnlessFull(q, cl, Pod, limit, typeResults[OfPods], all(OfPods));
    var workloads := ScanWorkloads(q, cl, limit, typeResults[OfWorkloads], all(OfWorkloads));
    r := typeResults[OfClusters := names][OfNodes := nodes][OfPods := pods][OfWorkloads := workloads];
  }

  /** The nested loops with their early exits find, per resource type, exactly the first `limit` matches of the
      exhaustive search over the clusters in order. */
  method QuickTypeResults(q: Query, clusters: seq<Cluster>, limit: int) returns (typeResults: map<ResourceType, seq<SearchResult>>)
    ensures Holds(typeResults, limit, Sought(q, clusters))
  {
    typeResults := map[OfClusters := [], OfNodes := [], OfPods := [], OfWorkloads := []];
    for i := 0 to |clusters|
      invariant Holds(typeResults, limit, Sought(q, clusters[..i]))
    {
      ghost var all, next := Sought(q, clusters[..i]), Sought(q, clusters[..i + 1]);
      forall t ensures next(t) == all(t) + QuickType(q, t, clusters[i]) {
        CollectSnoc(clusters, i, QuickPick(q, t));
      }
      if clusters[i].ensured {
        typeResults := SearchCluster(q, clusters[i], limit, typeResults, all, next);
      }
    }
    assert clusters[..|clusters|] == clusters;
  }

  lemma TypeByType(results: map<ResourceType, seq<SearchResult>>, q: Query, clusters: seq<Cluster>, limit: int, t: ResourceType)
    requires Holds(results, limit, Sought(q, clusters))
    ensures t in results && results[t] == Take(limit, Exhaustive(q, t, clusters))
  {
  }

  function At(typeResults: map<ResourceType, seq<SearchResult>>, t: ResourceType): seq<SearchResult>
    requires IsTyped(typeResults)
  {
    match t
    case OfClusters => typeResults[OfClusters]
    case OfNodes => typeResults[OfNodes]
    case OfPods => typeResults[OfPods]
    case OfWorkloads => typeResults[OfWorkloads]
  }

  function Concat(typeResults: map<ResourceType, seq<SearchResult>>, order: seq<ResourceType>): seq<SearchResult>
    requires IsTyped(typeResults)
  {
    if order == [] then [] else At(typeResults, order[0]) + Concat(typeResults, order[1..])
  }

  lemma {:induction false} ConcatAppend(typeResults: map<ResourceType, seq<SearchResult>>, a: seq<ResourceType>, b: seq<ResourceType>)
    requires IsTyped(typeResults)
    ensures Concat(typeResults, a + b) == Concat(typeResults, a) + Concat(typeResults, b)
  {
    if a == [] {
      assert a + b == b;
    } else {
      assert (a + b)[1..] == a[1..] + b;
      ConcatAppend(typeResults, a[1..], b);
    }
  }

  method Concatenate(typeResults: map<ResourceType, seq<SearchResult>>, order: seq<ResourceType>) returns (results: seq<SearchResult>)
    requires IsTyped(typeResults)
    ensures results == Concat(typeResults, order)
  {
    results := [];
    for i := 0 to |order|
      invariant results == Concat(typeResults, order[..i])
    {
      results := results + At(typeResults, order[i]);
      assert order[..i + 1] == order[..i] + [order[i]];
      ConcatAppend(typeResults, order[..i], [order[i]]);
      assert Concat(typeResults, [order[i]]) == At(typeResults, order[i]);
    }
    assert order[..|order|] == order;
  }

  datatype QuickResponse = QuickFailed | QuickFound(results: seq<SearchResult>)

  /** `limit` is None when the parameter does not parse; `order` is the order in which Go visits the map. */
  method QuickSearch(q: Query, limit: Option<int>, clusters: Option<seq<Cluster>>, order: seq<ResourceType>)
    returns (response: QuickResponse, ghost typeResults: map<ResourceType, seq<SearchResult>>)
    requires multiset(order) == multiset([OfClusters, OfNodes, OfPods, OfWorkloads])
    ensures q.text == "" ==> response == QuickFound([])
    ensures q.text != "" ==> (response == QuickFailed <==> clusters == None)
    ensures q.text != "" && clusters.Some? ==>
      && Holds(typeResults, if limit.Some? then limit.value else 10, Sought(q, clusters.value))
      && response == QuickFound(Concat(typeResults, order))
  {
    typeResults := map[];
    if q.text == "" {
      return QuickFound([]), typeResults;
    }
    if clusters == None {
      return QuickFailed, typeResults;
    }
    var found := QuickTypeResults(q, clusters.value, if limit.Some? then limit.value else 10);
    var results := Concatenate(found, order);
    return QuickFound(results), found;
  }

  /** Taking the first of one list out of both leaves permutations of each other. */
  lemma WithoutFirst<T>(a: seq<T>, b: seq<T>) returns (i: nat)
    requires a != [] && multiset(a) == multiset(b)
    ensures i < |b| && b[i] == a[0] && multiset(a[1..]) == multiset(b[..i] + b[i + 1..])
  {
    assert a[0] in multiset(b);
    i :| 0 <= i < |b| && b[i] == a[0];
    assert a == [a[0]] + a[1..];
    assert b == b[..i] + [b[i]] + b[i + 1..];
    assert multiset(a[1..]) == multiset(a) - multiset{a[0]};
    assert multiset(b[..i] + b[i + 1..]) == multiset(b) - multiset{b[i]};
  }

  /** The order in which Go visits the map decides the order of the answer, never its content. */
  lemma {:induction false} ConcatIgnoresOrder(typeResults: map<ResourceType, seq<SearchResult>>, a: seq<ResourceType>, b: seq<ResourceType>)
    requires IsTyped(typeResults)
    requires multiset(a) == multiset(b)
    ensures multiset(Concat(typeResults, a)) == multiset(Concat(typeResults, b))
  {
    if a == [] {
      assert |b| == |multiset(b)| == 0;
    } else {
      var i := WithoutFirst(a, b);
      ConcatIgnoresOrder(typeResults, a[1..], b[..i] + b[i + 1..]);
      ConcatWithoutOne(typeResults, b, i);
    }
  }

  lemma ConcatWithoutOne(typeResults: map<ResourceType, seq<SearchResult>>, b: seq<ResourceType>, i: nat)
    requires i < |b| && IsTyped(typeResults)
    ensures multiset(Concat(typeResults, b)) == multiset(At(typeResults, b[i])) + multiset(Concat(typeResults, b[..i] + b[i + 1..]))
  {
    assert b == b[..i] + b[i..];
    ConcatAppend(typeResults, b[..i], b[i..]);
    ConcatAppend(typeResults, b[..i], b[i + 1..]);
    assert b[i..][1..] == b[i + 1..];
  }

  // ---------------------------------------------------------------- GlobalSearch

  method ScanItem(q: Query, cl: Cluster, kind: Kind, x: Resource) returns (r: seq<SearchResult>)
    ensures r == ByName(q, cl, kind, x) + ByAddress(q, cl, kind, x)
  {
    r := [];
    if q.Hits(x.name) {
      r := r + [Render(cl, kind, x, if kind == Pod then x.ip else "")];
    }
    if kind == Node {
      var address := ScanAddresses(x.addresses, q.text);
      if address.Some? {
        r := r + [Render(cl, Node, x, address.value)];
      }
    } else if kind == Pod && Contains(x.ip, q.text) {
      r := r + [Render(cl, Pod, x, x.ip)];
    }
  }

  method ScanFully(q: Query, cl: Cluster, kind: Kind) returns (r: seq<SearchResult>)
    ensures r == GlobalKind(q, cl, kind)
  {
    r := [];
    var listing := cl.listing(kind);
    if listing == None {
      return;
    }
    ghost var pick := FullPick(q, cl, kind);
    var items := listing.value;
    for i := 0 to |items|
      invariant r == Collect(items[..i], pick)
    {
      CollectSnoc(items, i, pick);
      var found := ScanItem(q, cl, kind, items[i]);
      r := r + found;
    }
    assert items[..|items|] == items;
  }

  method ScanAddresses(addresses: seq<string>, text: string) returns (r: Option<string>)
    ensures r == FirstAddress(addresses, text)
    ensures r.Some? ==> r.value in addresses && Occurs(r.value, text)
    ensures r == None ==> forall a | a in addresses :: !Occurs(a, text)
  {
    for i := 0 to |addresses|
      invariant FirstAddress(addresses, text) == FirstAddress(addresses[i..], text)
      invariant forall j | 0 <= j < i :: !Occurs(addresses[j], text)
    {
      assert addresses[i..][0] == addresses[i] && addresses[i..][1..] == addresses[i + 1..];
      if Contains(addresses[i], text) {
        return Some(addresses[i]);
      }
    }
    return None;
  }

  method ScanGlobally(q: Query, cl: Cluster) returns (r: seq<SearchResult>)
    ensures r == GlobalOf(q, cl)
  {
    if !cl.ensured {
      return [];
    }
    var nodes := ScanFully(q, cl, Node);
    var pods := ScanFully(q, cl, Pod);
    var deployments := ScanFully(q, cl, Deployment);
    var rollouts := ScanFully(q, cl, Rollout);
    var statefulSets := ScanFully(q, cl, StatefulSet);
    var daemonSets := ScanFully(q, cl, DaemonSet);
    return nodes + pods + (deployments + rollouts + statefulSets + daemonSets);
  }

  method MatchClusters(q: Query, clusters: seq<Cluster>) returns (r: seq<SearchResult>)
    ensures r == Collect(clusters, ClusterPick(q))
  {
    r := [];
    for i := 0 to |clusters|
      invariant r == Collect(clusters[..i], ClusterPick(q))
    {
      CollectSnoc(clusters, i, ClusterPick(q));
      if q.Hits(clusters[i].name) {
        r := r + [RenderCluster(clusters[i])];
      }
    }
    assert clusters[..|clusters|] == clusters;
  }

  method ScanClusters(q: Query, clusters: seq<Cluster>) returns (r: seq<SearchResult>)
    ensures r == Collect(clusters, GlobalPick(q))
  {
    r := [];
    for i := 0 to |clusters|
      invariant r == Collect(clusters[..i], GlobalPick(q))
    {
      CollectSnoc(clusters, i, GlobalPick(q));
      var found := ScanGlobally(q, clusters[i]);
      r := r + found;
    }
    assert clusters[..|clusters|] == clusters;
  }

  datatype Stats = Stats(clusters: nat, nodes: nat, pods: nat, workloads: nat)

  datatype GlobalResponse = EmptyQuery | GlobalFailed | GlobalFound(results: seq<SearchResult>, stats: Stats)

  function CountType(results: seq<SearchResult>, t: ResourceType): nat {
    if results == [] then 0 else CountType(results[..|results| - 1], t) + if results[|results| - 1].resourceType == t then 1 else 0
  }

  method CountAll(results: seq<SearchResult>) returns (stats: Stats)
    ensures stats == Stats(CountType(results, OfClusters), CountType(results, OfNodes), CountType(results, OfPods), CountType(results, OfWorkloads))
    ensures stats.clusters + stats.nodes + stats.pods + stats.workloads == |results|
  {
    stats := Stats(0, 0, 0, 0);
    for i := 0 to |results|
      invariant stats.clusters == CountType(results[..i], OfClusters) && stats.nodes == CountType(results[..i], OfNodes)
      invariant stats.pods == CountType(results[..i], OfPods) && stats.workloads == CountType(results[..i], OfWorkloads)
      invariant stats.clusters + stats.nodes + stats.pods + stats.workloads == i
    {
      assert results[..i + 1][..i] == results[..i];
      match results[i].resourceType
      case OfClusters => stats := stats.(clusters := stats.clusters + 1);
      case OfNodes => stats := stats.(nodes := stats.nodes + 1);
      case OfPods => stats := stats.(pods := stats.pods + 1);
      case OfWorkloads => stats := stats.(workloads := stats.workloads + 1);
    }
    assert results[..|results|] == results;
  }

  method GlobalSearch(q: Query, clusters: Option<seq<Cluster>>) returns (response: GlobalResponse)
    ensures response == EmptyQuery <==> q.text == ""
    ensures q.text != "" ==> (response == GlobalFailed <==> clusters == None)
    ensures response.GlobalFound? ==> response.results == GlobalResults(q, clusters.value)
    ensures response.GlobalFound? ==>
      && response.stats.clusters == CountType(response.results, OfClusters) && response.stats.nodes == CountType(response.results, OfNodes)
      && response.stats.pods == CountType(response.results, OfPods) && response.stats.workloads == CountType(response.results, OfWorkloads)
      && response.stats.clusters + response.stats.nodes + response.stats.pods + response.stats.workloads == |response.results|
  {
    if q.text == "" {
      return EmptyQuery;
    }
    if clusters == None {
      return GlobalFailed;
    }
    var names := MatchClusters(q, clusters.value);
    var contents := ScanClusters(q, clusters.value);
    var results := names + contents;
    var stats := CountAll(results);
    return GlobalFound(results, stats);
  }

  // ---------------------------------------------------------------- quick against global

  lemma {:induction false} CollectSum<T(!new)>(xs: seq<T>, whole: T -> seq<SearchResult>, part: T -> seq<SearchResult>, rest: T -> seq<SearchResult>)
    requires forall x :: multiset(whole(x)) == multiset(part(x)) + multiset(rest(x))
    ensures multiset(Collect(xs, whole)) == multiset(Collect(xs, part)) + multiset(Collect(xs, rest))
  {
    if xs != [] {
      CollectSum(xs[1..], whole, part, rest);
      assert multiset(whole(xs[0])) == multiset(part(xs[0])) + multiset(rest(xs[0]));
    }
  }

  function AddressPick(q: Query, cl: Cluster, kind: Kind): Resource -> seq<SearchResult> {
    x => ByAddress(q, cl, kind, x)
  }

  function AddressKind(q: Query, cl: Cluster, kind: Kind): seq<SearchResult> {
    Collect(Listing(cl, kind), AddressPick(q, cl, kind))
  }

  lemma KindSum(q: Query, cl: Cluster, kind: Kind)
    ensures multiset(GlobalKind(q, cl, kind)) == multiset(QuickKind(q, cl, kind)) + multiset(AddressKind(q, cl, kind))
  {
    CollectSum(Listing(cl, kind), FullPick(q, cl, kind), NamePick(q, cl, kind), AddressPick(q, cl, kind));
  }

  lemma {:induction false} NothingByAddress(q: Query, cl: Cluster, kind: Kind, xs: seq<Resource>)
    requires kind != Node && kind != Pod
    ensures Collect(xs, AddressPick(q, cl, kind)) == []
  {
    if xs != [] {
      NothingByAddress(q, cl, kind, xs[1..]);
    }
  }

  lemma WorkloadKind(q: Query, cl: Cluster, kind: Kind)
    requires kind != Node && kind != Pod
    ensures multiset(GlobalKind(q, cl, kind)) == multiset(QuickKind(q, cl, kind))
  {
    KindSum(q, cl, kind);
    NothingByAddress(q, cl, kind, Listing(cl, kind));
  }

  /** What GlobalSearch finds in a cluster and QuickSearch never does: the matches by address, and the cluster's
      own name when its informers cannot be ensured. */
  function Extra(q: Query, cl: Cluster): seq<SearchResult> {
    if cl.ensured then AddressKind(q, cl, Node) + AddressKind(q, cl, Pod) else ClusterHit(q, cl)
  }

  function ExtraPick(q: Query): Cluster -> seq<SearchResult> {
    cl => Extra(q, cl)
  }

  function QuickSum(q: Query, cl: Cluster): seq<SearchResult> {
    QuickType(q, OfClusters, cl) + QuickType(q, OfNodes, cl) + (QuickType(q, OfPods, cl) + QuickType(q, OfWorkloads, cl))
  }

  lemma PodsOfEnsured(q: Query, cl: Cluster)
    requires cl.ensured
    ensures QuickType(q, OfPods, cl) == QuickKind(q, cl, Pod)
  {
  }

  lemma WorkloadsOfEnsured(q: Query, cl: Cluster)
    requires cl.ensured
    ensures QuickType(q, OfWorkloads, cl) == QuickWorkloads(q, cl)
  {
  }

  lemma ClusterSum(q: Query, cl: Cluster)
    ensures multiset(ClusterHit(q, cl) + GlobalOf(q, cl)) == multiset(QuickSum(q, cl)) + multiset(Extra(q, cl))
  {
    if cl.ensured {
      KindSum(q, cl, Node);
      KindSum(q, cl, Pod);
      WorkloadSum(q, cl);
      var n, p, w := QuickKind(q, cl, Node), QuickKind(q, cl, Pod), QuickWorkloads(q, cl);
      PodsOfEnsured(q, cl);
      WorkloadsOfEnsured(q, cl);
      SumOfParts(ClusterHit(q, cl), GlobalKind(q, cl, Node), GlobalKind(q, cl, Pod), GlobalWorkloads(q, cl), n, p, w,
                 AddressKind(q, cl, Node), AddressKind(q, cl, Pod));
    } else {
      assert QuickSum(q, cl) == [];
      assert ClusterHit(q, cl) + GlobalOf(q, cl) == Extra(q, cl);
    }
  }

  lemma WorkloadSum(q: Query, cl: Cluster)
    ensures multiset(GlobalWorkloads(q, cl)) == multiset(QuickWorkloads(q, cl))
  {
    WorkloadKind(q, cl, Deployment);
    WorkloadKind(q, cl, StatefulSet);
    WorkloadKind(q, cl, DaemonSet);
    WorkloadKind(q, cl, Rollout);
    Shuffle(GlobalKind(q, cl, Deployment), GlobalKind(q, cl, Rollout), GlobalKind(q, cl, StatefulSet), GlobalKind(q, cl, DaemonSet),
            QuickKind(q, cl, Deployment), QuickKind(q, cl, StatefulSet), QuickKind(q, cl, DaemonSet), QuickKind(q, cl, Rollout));
  }

  lemma Shuffle<T>(a: seq<T>, b: seq<T>, c: seq<T>, d: seq<T>, a': seq<T>, c': seq<T>, d': seq<T>, b': seq<T>)
    requires multiset(a) == multiset(a') && multiset(b) == multiset(b') && multiset(c) == multiset(c') && multiset(d) == multiset(d')
    ensures multiset(a + b + c + d) == multiset(a' + c' + d' + b')
  {
    assert multiset(a + b + c + d) == multiset(a) + multiset(b) + multiset(c) + multiset(d);
    assert multiset(a' + c' + d' + b') == multiset(a') + multiset(c') + multiset(d') + multiset(b');
  }

  lemma SumOfParts<T>(c: seq<T>, gn: seq<T>, gp: seq<T>, gw: seq<T>, n: seq<T>, p: seq<T>, w: seq<T>, xn: seq<T>, xp: seq<T>)
    requires multiset(gn) == multiset(n) + multiset(xn) && multiset(gp) == multiset(p) + multiset(xp) && multiset(gw) == multiset(w)
    ensures multiset(c + (gn + gp + gw)) == multiset(c + n + (p + w)) + multiset(xn + xp)
  {
    assert multiset(c + (gn + gp + gw)) == multiset(c) + (multiset(gn) + multiset(gp) + multiset(gw));
    assert multiset(c + n + (p + w)) == multiset(c) + multiset(n) + (multiset(p) + multiset(w));
  }

  lemma ExhaustiveSum(q: Query, clusters: seq<Cluster>)
    ensures multiset(Collect(clusters, cl => QuickSum(q, cl)))
         == multiset(Exhaustive(q, OfClusters, clusters)) + multiset(Exhaustive(q, OfNodes, clusters))
          + (multiset(Exhaustive(q, OfPods, clusters)) + multiset(Exhaustive(q, OfWorkloads, clusters)))
  {
    var first: Cluster -> seq<SearchResult> := cl => QuickType(q, OfClusters, cl) + QuickType(q, OfNodes, cl);
    var second: Cluster -> seq<SearchResult> := cl => QuickType(q, OfPods, cl) + QuickType(q, OfWorkloads, cl);
    CollectSum(clusters, first, QuickPick(q, OfClusters), QuickPick(q, OfNodes));
    CollectSum(clusters, second, QuickPick(q, OfPods), QuickPick(q, OfWorkloads));
    CollectSum(clusters, cl => QuickSum(q, cl), first, second);
  }

  /** On one snapshot, GlobalSearch finds exactly the unlimited quick results of the four types, each as often, and
      the extras. */
  lemma GlobalIsQuickPlusExtras(q: Query, clusters: seq<Cluster>)
    ensures multiset(GlobalResults(q, clusters))
         == multiset(Exhaustive(q, OfClusters, clusters)) + multiset(Exhaustive(q, OfNodes, clusters))
          + (multiset(Exhaustive(q, OfPods, clusters)) + multiset(Exhaustive(q, OfWorkloads, clusters)))
          + multiset(Collect(clusters, ExtraPick(q)))
  {
    var both: Cluster -> seq<SearchResult> := cl => ClusterHit(q, cl) + GlobalOf(q, cl);
    CollectSum(clusters, both, ClusterPick(q), GlobalPick(q));
    forall cl ensures multiset(both(cl)) == multiset(QuickSum(q, cl)) + multiset(Extra(q, cl)) {
      ClusterSum(q, cl);
    }
    CollectSum(clusters, both, cl => QuickSum(q, cl), ExtraPick(q));
    ExhaustiveSum(q, clusters);
  }

  lemma TakeWithin<T>(limit: int, s: seq<T>)
    ensures multiset(Take(limit, s)) <= multiset(s)
  {
    if 0 < limit < |s| {
      assert s == s[..limit] + s[limit..];
    }
  }

  /** Every answer of QuickSearch, for any limit and any order of the map, is contained in that of GlobalSearch. */
  lemma QuickIsWithinGlobal(q: Query, clusters: seq<Cluster>, limit: int, typeResults: map<ResourceType, seq<SearchResult>>, order: seq<ResourceType>)
    requires Holds(typeResults, limit, Sought(q, clusters))
    requires multiset(order) == multiset(TYPES)
    ensures multiset(Concat(typeResults, order)) <= multiset(GlobalResults(q, clusters))
  {
    forall t: ResourceType ensures t in typeResults && multiset(typeResults[t]) <= multiset(Exhaustive(q, t, clusters)) {
      TypeByType(typeResults, q, clusters, limit, t);
      TakeWithin(limit, Exhaustive(q, t, clusters));
    }
    ConcatIgnoresOrder(typeResults, order, TYPES);
    ConcatOfTypes(typeResults);
    GlobalIsQuickPlusExtras(q, clusters);
  }

  lemma ConcatOfTypes(typeResults: map<ResourceType, seq<SearchResult>>)
    requires IsTyped(typeResults)
    ensures multiset(Concat(typeResults, TYPES)) == multiset(typeResults[OfClusters]) + multiset(typeResults[OfNodes])
                                                  + (multiset(typeResults[OfPods]) + multiset(typeResults[OfWorkloads]))
  {
    assert TYPES[1..] == [OfNodes, OfPods, OfWorkloads] && TYPES[1..][1..] == [OfPods, OfWorkloads];
    assert [OfPods, OfWorkloads][1..] == [OfWorkloads] && [OfWorkloads][1..] == [];
    assert Concat(typeResults, [OfWorkloads]) == typeResults[OfWorkloads] + Concat(typeResults, []);
    assert Concat(typeResults, [OfPods, OfWorkloads]) == typeResults[OfPods] + Concat(typeResults, [OfWorkloads]);
    assert Concat(typeResults, TYPES[1..]) == typeResults[OfNodes] + Concat(typeResults, [OfPods, OfWorkloads]);
  }
}

// What the two searches find, read off the clusters and their objects: every match is listed, in order, and nothing else.

module SearchMatches {
  import opened Wrappers
  import opened GoStrings
  import opened Search

  // ---------------------------------------------------------------- places in a collection

  /** Where the i-th element of a collection comes from: which element contributed it, and as which of its contributions. */
  function Locate<T>(xs: seq<T>, pick: T -> seq<SearchResult>, i: nat): (at: (nat, nat))
    requires i < |Collect(xs, pick)|
    ensures at.0 < |xs| && at.1 < |pick(xs[at.0])| && pick(xs[at.0])[at.1] == Collect(xs, pick)[i]
  {
    if i < |pick(xs[0])| then (0, i)
    else
      var later := Locate(xs[1..], pick, i - |pick(xs[0])|);
      (later.0 + 1, later.1)
  }

  predicate Before(a: (nat, nat), b: (nat, nat)) {
    a.0 < b.0 || (a.0 == b.0 && a.1 < b.1)
  }

  lemma {:induction false} LocateInOrder<T>(xs: seq<T>, pick: T -> seq<SearchResult>, i: nat, j: nat)
    requires i < j < |Collect(xs, pick)|
    ensures Before(Locate(xs, pick, i), Locate(xs, pick, j))
  {
    var n := |pick(xs[0])|;
    if i >= n {
      LocateInOrder(xs[1..], pick, i - n, j - n);
    }
  }

  lemma {:induction false} LocateOnto<T>(xs: seq<T>, pick: T -> seq<SearchResult>, at: (nat, nat)) returns (i: nat)
    requires at.0 < |xs| && at.1 < |pick(xs[at.0])|
    ensures i < |Collect(xs, pick)| && Locate(xs, pick, i) == at
  {
    if at.0 == 0 {
      i := at.1;
    } else {
      var later := LocateOnto(xs[1..], pick, (at.0 - 1, at.1));
      i := later + |pick(xs[0])|;
    }
  }

  lemma {:induction false} CollectSame<T>(xs: seq<T>, f: T -> seq<SearchResult>, g: T -> seq<SearchResult>)
    requires forall x | x in xs :: f(x) == g(x)
    ensures Collect(xs, f) == Collect(xs, g)
  {
    if xs != [] {
      assert xs[0] in xs;
      CollectSame(xs[1..], f, g);
    }
  }

  // ---------------------------------------------------------------- clusters, kinds, objects

  /** What one object contributes. */
  type Pick = (Cluster, Kind, Resource) -> seq<SearchResult>

  function ObjectPick(pick: Pick, cl: Cluster, kind: Kind): Resource -> seq<SearchResult> {
    x => pick(cl, kind, x)
  }

  function KindPick(pick: Pick, cl: Cluster): Kind -> seq<SearchResult> {
    kind => Collect(Listing(cl, kind), ObjectPick(pick, cl, kind))
  }

  function ClustersPick(pick: Pick, kinds: seq<Kind>): Cluster -> seq<SearchResult> {
    (cl: Cluster) => if cl.ensured then Collect(kinds, KindPick(pick, cl)) else []
  }

  /** The contributions of all objects of these kinds in all ensured clusters: cluster by cluster, kind by kind. */
  function All(pick: Pick, kinds: seq<Kind>, clusters: seq<Cluster>): seq<SearchResult> {
    Collect(clusters, ClustersPick(pick, kinds))
  }

  /** A place: cluster, kind and object by position, and which of the object's contributions. */
  datatype Site = Site(c: nat, k: nat, x: nat, m: nat)

  predicate Precedes(a: Site, b: Site) {
    || a.c < b.c
    || (a.c == b.c && (a.k < b.k || (a.k == b.k && (a.x < b.x || (a.x == b.x && a.m < b.m)))))
  }

  /** The place is one of an object in an ensured cluster. */
  predicate IsPlace(kinds: seq<Kind>, clusters: seq<Cluster>, s: Site) {
    && s.c < |clusters| && clusters[s.c].ensured && s.k < |kinds|
    && clusters[s.c].listing(kinds[s.k]).Some? && s.x < |clusters[s.c].listing(kinds[s.k]).value|
  }

  function ObjectAt(kinds: seq<Kind>, clusters: seq<Cluster>, s: Site): Resource
    requires IsPlace(kinds, clusters, s)
  {
    clusters[s.c].listing(kinds[s.k]).value[s.x]
  }

  /** What the object there contributes. */
  function PickedAt(pick: Pick, kinds: seq<Kind>, clusters: seq<Cluster>, s: Site): seq<SearchResult>
    requires IsPlace(kinds, clusters, s)
  {
    pick(clusters[s.c], kinds[s.k], ObjectAt(kinds, clusters, s))
  }

  predicate Contributes(pick: Pick, kinds: seq<Kind>, clusters: seq<Cluster>, s: Site) {
    IsPlace(kinds, clusters, s) && s.m < |PickedAt(pick, kinds, clusters, s)|
  }

  function SiteOf(pick: Pick, kinds: seq<Kind>, clusters: seq<Cluster>, i: nat): (s: Site)
    requires i < |All(pick, kinds, clusters)|
    ensures Contributes(pick, kinds, clusters, s) && PickedAt(pick, kinds, clusters, s)[s.m] == All(pick, kinds, clusters)[i]
  {
    var (c, j) := Locate(clusters, ClustersPick(pick, kinds), i);
    var (k, l) := Locate(kinds, KindPick(pick, clusters[c]), j);
    var (x, m) := Locate(Listing(clusters[c], kinds[k]), ObjectPick(pick, clusters[c], kinds[k]), l);
    Site(c, k, x, m)
  }

  lemma SitesInOrder(pick: Pick, kinds: seq<Kind>, clusters: seq<Cluster>, i: nat, j: nat)
    requires i < j < |All(pick, kinds, clusters)|
    ensures Precedes(SiteOf(pick, kinds, clusters, i), SiteOf(pick, kinds, clusters, j))
  {
    LocateInOrder(clusters, ClustersPick(pick, kinds), i, j);
    var (c, i1) := Locate(clusters, ClustersPick(pick, kinds), i);
    var (d, j1) := Locate(clusters, ClustersPick(pick, kinds), j);
    if c == d {
      LocateInOrder(kinds, KindPick(pick, clusters[c]), i1, j1);
      var (k, i2) := Locate(kinds, KindPick(pick, clusters[c]), i1);
      var (l, j2) := Locate(kinds, KindPick(pick, clusters[c]), j1);
      if k == l {
        LocateInOrder(Listing(clusters[c], kinds[k]), ObjectPick(pick, clusters[c], kinds[k]), i2, j2);
      }
    }
  }

  lemma SitesOnto(pick: Pick, kinds: seq<Kind>, clusters: seq<Cluster>, s: Site) returns (i: nat)
    requires Contributes(pick, kinds, clusters, s)
    ensures i < |All(pick, kinds, clusters)| && SiteOf(pick, kinds, clusters, i) == s
  {
    var cl := clusters[s.c];
    var l := LocateOnto(Listing(cl, kinds[s.k]), ObjectPick(pick, cl, kinds[s.k]), (s.x, s.m));
    var j := LocateOnto(kinds, KindPick(pick, cl), (s.k, l));
    i := LocateOnto(clusters, ClustersPick(pick, kinds), (s.c, j));
  }

  /** The places of all contributions, in the order in which these stand: strictly ascending, and none is missing. */
  lemma SitesOfAll(pick: Pick, kinds: seq<Kind>, clusters: seq<Cluster>) returns (sites: seq<Site>)
    ensures |sites| == |All(pick, kinds, clusters)|
    ensures forall i | 0 <= i < |sites| ::
      Contributes(pick, kinds, clusters, sites[i]) && PickedAt(pick, kinds, clusters, sites[i])[sites[i].m] == All(pick, kinds, clusters)[i]
    ensures forall i, j | 0 <= i < j < |sites| :: Precedes(sites[i], sites[j])
    ensures forall s :: s in sites <==> Contributes(pick, kinds, clusters, s)
  {
    var n := |All(pick, kinds, clusters)|;
    sites := seq(n, i requires 0 <= i < n => SiteOf(pick, kinds, clusters, i));
    forall i, j | 0 <= i < j < n ensures Precedes(sites[i], sites[j]) {
      SitesInOrder(pick, kinds, clusters, i, j);
    }
    forall s | Contributes(pick, kinds, clusters, s) ensures s in sites {
      var i := SitesOnto(pick, kinds, clusters, s);
      assert sites[i] == s;
    }
  }

  // ---------------------------------------------------------------- what a result shows

  /** The result shows this object of this cluster. Nodes have no namespace and always read "Ready"; a workload's kind is
      also its status. */
  predicate Shows(r: SearchResult, cl: Cluster, kind: Kind, x: Resource, ip: string) {
    && r.id == x.name && r.name == x.name && r.clusterId == Decimal(cl.id) && r.clusterName == cl.name
    && r.description == x.description && r.ip == ip
    && match kind
       case Node => r.resourceType == OfNodes && r.namespace == "" && r.status == "Ready" && r.kind == ""
       case Pod => r.resourceType == OfPods && r.namespace == x.namespace && r.status == x.status && r.kind == ""
       case Deployment => ShowsWorkload(r, x, "Deployment")
       case StatefulSet => ShowsWorkload(r, x, "StatefulSet")
       case DaemonSet => ShowsWorkload(r, x, "DaemonSet")
       case Rollout => ShowsWorkload(r, x, "Rollout")
  }

  predicate ShowsWorkload(r: SearchResult, x: Resource, kind: string) {
    r.resourceType == OfWorkloads && r.namespace == x.namespace && r.status == kind && r.kind == kind
  }

  predicate ShowsCluster(r: SearchResult, cl: Cluster) {
    r == SearchResult(OfClusters, Decimal(cl.id), cl.name, "", Decimal(cl.id), cl.name, cl.status, cl.apiServer, "", "")
  }

  // ---------------------------------------------------------------- the quick search

  /** The kinds of a resource type, in the order of the scans. */
  function QuickKinds(t: ResourceType): seq<Kind> {
    match t
    case OfClusters => []
    case OfNodes => [Node]
    case OfPods => [Pod]
    case OfWorkloads => [Deployment, StatefulSet, DaemonSet, Rollout]
  }

  function NamePicks(q: Query): Pick {
    (cl, kind, x) => ByName(q, cl, kind, x)
  }

  lemma HitsMeansOccurs(q: Query, name: string)
    ensures q.Hits(name) <==> Occurs(q.lower(name), q.lower(q.text))
  {
  }

  lemma KindPickIsQuickKind(q: Query, cl: Cluster, kind: Kind)
    ensures KindPick(NamePicks(q), cl)(kind) == QuickKind(q, cl, kind)
  {
    CollectSame(Listing(cl, kind), ObjectPick(NamePicks(q), cl, kind), NamePick(q, cl, kind));
  }

  lemma CollectOfOne<T>(x: T, pick: T -> seq<SearchResult>)
    ensures Collect([x], pick) == pick(x)
  {
    assert Collect([x][1..], pick) == [];
  }

  lemma CollectOfFour<T>(a: T, b: T, c: T, d: T, pick: T -> seq<SearchResult>)
    ensures Collect([a, b, c, d], pick) == pick(a) + pick(b) + pick(c) + pick(d)
  {
    CollectAppend([a, b], [c, d], pick);
    CollectAppend([a], [b], pick);
    CollectAppend([c], [d], pick);
    CollectOfOne(a, pick);
    CollectOfOne(b, pick);
    CollectOfOne(c, pick);
    CollectOfOne(d, pick);
    assert [a, b, c, d] == [a, b] + [c, d] && [a, b] == [a] + [b] && [c, d] == [c] + [d];
  }

  lemma QuickTypeIsByKinds(q: Query, t: ResourceType, cl: Cluster)
    requires t != OfClusters
    ensures ClustersPick(NamePicks(q), QuickKinds(t))(cl) == QuickType(q, t, cl)
  {
    var pick := KindPick(NamePicks(q), cl);
    forall kind ensures pick(kind) == QuickKind(q, cl, kind) {
      KindPickIsQuickKind(q, cl, kind);
    }
    match t
    case OfNodes => CollectOfOne(Node, pick);
    case OfPods => CollectOfOne(Pod, pick);
    case OfWorkloads => CollectOfFour(Deployment, StatefulSet, DaemonSet, Rollout, pick);
  }

  lemma QuickIsAll(q: Query, t: ResourceType, clusters: seq<Cluster>)
    requires t != OfClusters
    ensures Exhaustive(q, t, clusters) == All(NamePicks(q), QuickKinds(t), clusters)
  {
    forall cl ensures ClustersPick(NamePicks(q), QuickKinds(t))(cl) == QuickPick(q, t)(cl) {
      QuickTypeIsByKinds(q, t, cl);
    }
    CollectSame(clusters, ClustersPick(NamePicks(q), QuickKinds(t)), QuickPick(q, t));
  }

  /** The result shows the object at this place, with its IP if it is a pod. */
  predicate ShowsPlace(r: SearchResult, kinds: seq<Kind>, clusters: seq<Cluster>, s: Site) {
    && IsPlace(kinds, clusters, s)
    && var x := ObjectAt(kinds, clusters, s);
       Shows(r, clusters[s.c], kinds[s.k], x, if kinds[s.k] == Pod then x.ip else "")
  }

  /** The exhaustive search that the quick one cuts off, per type: exactly the objects of ensured clusters whose lowered name
      has the lowered query as a part, each once, cluster by cluster, for workloads kind by kind, in the order of the
      listings; and each result shows its object. */
  lemma QuickListsEveryMatch(q: Query, t: ResourceType, clusters: seq<Cluster>) returns (sites: seq<Site>)
    requires t != OfClusters
    ensures |sites| == |Exhaustive(q, t, clusters)|
    ensures forall i | 0 <= i < |sites| :: ShowsPlace(Exhaustive(q, t, clusters)[i], QuickKinds(t), clusters, sites[i])
    ensures forall i, j | 0 <= i < j < |sites| :: Precedes(sites[i], sites[j])
    ensures forall s :: s in sites <==>
      IsPlace(QuickKinds(t), clusters, s) && s.m == 0 && Occurs(q.lower(ObjectAt(QuickKinds(t), clusters, s).name), q.lower(q.text))
  {
    QuickIsAll(q, t, clusters);
    sites := SitesOfAll(NamePicks(q), QuickKinds(t), clusters);
    forall s | IsPlace(QuickKinds(t), clusters, s)
      ensures Contributes(NamePicks(q), QuickKinds(t), clusters, s)
         <==> s.m == 0 && Occurs(q.lower(ObjectAt(QuickKinds(t), clusters, s).name), q.lower(q.text))
      ensures forall m: nat | m < |PickedAt(NamePicks(q), QuickKinds(t), clusters, s)| ::
        ShowsPlace(PickedAt(NamePicks(q), QuickKinds(t), clusters, s)[m], QuickKinds(t), clusters, s)
    {
      NamePicksAreMatches(q, clusters[s.c], QuickKinds(t)[s.k], ObjectAt(QuickKinds(t), clusters, s));
    }
  }

  lemma NamePicksAreMatches(q: Query, cl: Cluster, kind: Kind, x: Resource)
    ensures |NamePicks(q)(cl, kind, x)| == if Occurs(q.lower(x.name), q.lower(q.text)) then 1 else 0
    ensures forall m: nat | m < |NamePicks(q)(cl, kind, x)| ::
      Shows(NamePicks(q)(cl, kind, x)[m], cl, kind, x, if kind == Pod then x.ip else "")
  {
    HitsMeansOccurs(q, x.name);
    RenderShows(cl, kind, x, if kind == Pod then x.ip else "");
  }

  lemma RenderShows(cl: Cluster, kind: Kind, x: Resource, ip: string)
    requires kind == Node || kind == Pod || ip == ""
    ensures Shows(Render(cl, kind, x, ip), cl, kind, x, ip)
  {
  }

  // ---------------------------------------------------------------- the names of clusters

  /** Positions in ascending order. */
  predicate Ascending(at: seq<nat>) {
    forall i, j | 0 <= i < j < |at| :: at[i] < at[j]
  }

  lemma ClusterNames(clusters: seq<Cluster>, pick: Cluster -> seq<SearchResult>) returns (at: seq<nat>)
    requires forall cl :: pick(cl) == [] || pick(cl) == [RenderCluster(cl)]
    ensures |at| == |Collect(clusters, pick)| && Ascending(at)
    ensures forall c: nat :: c in at <==> c < |clusters| && pick(clusters[c]) != []
    ensures forall i | 0 <= i < |at| :: at[i] < |clusters| && ShowsCluster(Collect(clusters, pick)[i], clusters[at[i]])
  {
    var n := |Collect(clusters, pick)|;
    at := seq(n, i requires 0 <= i < n => Locate(clusters, pick, i).0);
    forall i, j | 0 <= i < j < n ensures at[i] < at[j] {
      LocateInOrder(clusters, pick, i, j);
    }
    forall c: nat | c < |clusters| && pick(clusters[c]) != [] ensures c in at {
      var i := LocateOnto(clusters, pick, (c, 0));
      assert at[i] == c;
    }
  }

  /** Of the clusters the quick search lists those that match by name and can be ensured. */
  lemma QuickListsEveryCluster(q: Query, clusters: seq<Cluster>) returns (at: seq<nat>)
    ensures |at| == |Exhaustive(q, OfClusters, clusters)| && Ascending(at)
    ensures forall c: nat :: c in at <==> c < |clusters| && clusters[c].ensured && Occurs(q.lower(clusters[c].name), q.lower(q.text))
    ensures forall i | 0 <= i < |at| :: at[i] < |clusters| && ShowsCluster(Exhaustive(q, OfClusters, clusters)[i], clusters[at[i]])
  {
    at := ClusterNames(clusters, QuickPick(q, OfClusters));
    forall cl: Cluster ensures QuickPick(q, OfClusters)(cl) != [] <==> cl.ensured && Occurs(q.lower(cl.name), q.lower(q.text)) {
      HitsMeansOccurs(q, cl.name);
    }
  }

  // ---------------------------------------------------------------- the global search

  /** The kinds of a cluster's contents, in the order of the scans. */
  function GlobalKinds(): seq<Kind> {
    [Node, Pod, Deployment, Rollout, StatefulSet, DaemonSet]
  }

  function FullPicks(q: Query): Pick {
    (cl, kind, x) => ByName(q, cl, kind, x) + ByAddress(q, cl, kind, x)
  }

  lemma KindPickIsGlobalKind(q: Query, cl: Cluster, kind: Kind)
    ensures KindPick(FullPicks(q), cl)(kind) == GlobalKind(q, cl, kind)
  {
    CollectSame(Listing(cl, kind), ObjectPick(FullPicks(q), cl, kind), FullPick(q, cl, kind));
  }

  lemma GlobalOfIsByKinds(q: Query, cl: Cluster)
    ensures ClustersPick(FullPicks(q), GlobalKinds())(cl) == GlobalOf(q, cl)
  {
    var pick := KindPick(FullPicks(q), cl);
    forall kind ensures pick(kind) == GlobalKind(q, cl, kind) {
      KindPickIsGlobalKind(q, cl, kind);
    }
    CollectOfSix(Node, Pod, Deployment, Rollout, StatefulSet, DaemonSet, pick);
  }

  lemma CollectOfSix<T>(a: T, b: T, c: T, d: T, e: T, f: T, pick: T -> seq<SearchResult>)
    ensures Collect([a, b, c, d, e, f], pick) == pick(a) + pick(b) + (pick(c) + pick(d) + pick(e) + pick(f))
  {
    CollectAppend([a] + [b], [c, d, e, f], pick);
    CollectAppend([a], [b], pick);
    CollectOfOne(a, pick);
    CollectOfOne(b, pick);
    CollectOfFour(c, d, e, f, pick);
    assert [a, b, c, d, e, f] == [a] + [b] + [c, d, e, f];
  }

  lemma GlobalIsAll(q: Query, clusters: seq<Cluster>)
    ensures GlobalResults(q, clusters) == Collect(clusters, ClusterPick(q)) + All(FullPicks(q), GlobalKinds(), clusters)
  {
    forall cl ensures ClustersPick(FullPicks(q), GlobalKinds())(cl) == GlobalPick(q)(cl) {
      GlobalOfIsByKinds(q, cl);
    }
    CollectSame(clusters, ClustersPick(FullPicks(q), GlobalKinds()), GlobalPick(q));
  }

  /** The address by which an object matches, in its own letters: a node's first address with the query in it, a pod's IP. */
  ghost predicate MatchesBy(text: string, kind: Kind, x: Resource, address: string) {
    || (kind == Pod && address == x.ip && Occurs(address, text))
    || (kind == Node && exists i :: 0 <= i < |x.addresses| && x.addresses[i] == address && Occurs(address, text)
                                    && forall j | 0 <= j < i :: !Occurs(x.addresses[j], text))
  }

  lemma {:induction false} FirstAddressIs(addresses: seq<string>, text: string) returns (i: nat)
    ensures i <= |addresses| && forall j | 0 <= j < i :: !Occurs(addresses[j], text)
    ensures i < |addresses| ==> Occurs(addresses[i], text) && FirstAddress(addresses, text) == Some(addresses[i])
    ensures i == |addresses| ==> FirstAddress(addresses, text) == None
  {
    if addresses == [] || Contains(addresses[0], text) {
      i := 0;
    } else {
      var later := FirstAddressIs(addresses[1..], text);
      i := later + 1;
    }
  }

  lemma ByAddressMatches(q: Query, cl: Cluster, kind: Kind, x: Resource)
    ensures |ByAddress(q, cl, kind, x)| <= 1
    ensures ByAddress(q, cl, kind, x) != [] <==> exists address :: MatchesBy(q.text, kind, x, address)
    ensures ByAddress(q, cl, kind, x) != [] ==>
      exists address :: MatchesBy(q.text, kind, x, address) && Shows(ByAddress(q, cl, kind, x)[0], cl, kind, x, address)
  {
    if kind == Pod {
      assert Contains(x.ip, q.text) ==> MatchesBy(q.text, kind, x, x.ip);
    }
    if kind == Node {
      var i := FirstAddressIs(x.addresses, q.text);
      if i < |x.addresses| {
        assert MatchesBy(q.text, kind, x, x.addresses[i]);
        assert Shows(ByAddress(q, cl, kind, x)[0], cl, kind, x, x.addresses[i]);
      }
    }
  }

  /** The contribution of an object is its match by name, then that by address. */
  ghost predicate IsMatch(r: SearchResult, q: Query, cl: Cluster, kind: Kind, x: Resource, m: nat) {
    if m == 0 && Occurs(q.lower(x.name), q.lower(q.text)) then Shows(r, cl, kind, x, if kind == Pod then x.ip else "")
    else exists address :: MatchesBy(q.text, kind, x, address) && Shows(r, cl, kind, x, address)
  }

  /** How many contributions an object has. */
  ghost function Matches(q: Query, kind: Kind, x: Resource): nat {
    (if Occurs(q.lower(x.name), q.lower(q.text)) then 1 else 0) + (if exists address :: MatchesBy(q.text, kind, x, address) then 1 else 0)
  }

  lemma FullPicksAreMatches(q: Query, cl: Cluster, kind: Kind, x: Resource)
    ensures |FullPicks(q)(cl, kind, x)| == Matches(q, kind, x)
    ensures forall m: nat | m < |FullPicks(q)(cl, kind, x)| :: IsMatch(FullPicks(q)(cl, kind, x)[m], q, cl, kind, x, m)
  {
    NamePicksAreMatches(q, cl, kind, x);
    ByAddressMatches(q, cl, kind, x);
    var byName, byAddress := NamePicks(q)(cl, kind, x), ByAddress(q, cl, kind, x);
    assert FullPicks(q)(cl, kind, x) == byName + byAddress;
  }

  /** The global search lists first the clusters that match by name, ensured or not; then, cluster by cluster and kind by kind,
      for every object its match by name, if it has one, and its match by address, if it has one; and nothing else. */
  lemma GlobalListsEveryMatch(q: Query, clusters: seq<Cluster>) returns (at: seq<nat>, sites: seq<Site>)
    ensures |GlobalResults(q, clusters)| == |at| + |sites| && Ascending(at)
    ensures forall c: nat :: c in at <==> c < |clusters| && Occurs(q.lower(clusters[c].name), q.lower(q.text))
    ensures forall i | 0 <= i < |at| :: at[i] < |clusters| && ShowsCluster(GlobalResults(q, clusters)[i], clusters[at[i]])
    ensures forall i | 0 <= i < |sites| :: MatchesPlace(GlobalResults(q, clusters)[|at| + i], q, clusters, sites[i])
    ensures forall i, j | 0 <= i < j < |sites| :: Precedes(sites[i], sites[j])
    ensures forall s :: s in sites <==>
      IsPlace(GlobalKinds(), clusters, s) && s.m < Matches(q, GlobalKinds()[s.k], ObjectAt(GlobalKinds(), clusters, s))
  {
    at := ClusterNames(clusters, ClusterPick(q));
    forall cl: Cluster ensures ClusterPick(q)(cl) != [] <==> Occurs(q.lower(cl.name), q.lower(q.text)) {
      HitsMeansOccurs(q, cl.name);
    }
    GlobalIsAll(q, clusters);
    var kinds := GlobalKinds();
    sites := SitesOfAll(FullPicks(q), kinds, clusters);
    forall s | IsPlace(kinds, clusters, s)
      ensures |PickedAt(FullPicks(q), kinds, clusters, s)| == Matches(q, kinds[s.k], ObjectAt(kinds, clusters, s))
      ensures s.m < |PickedAt(FullPicks(q), kinds, clusters, s)| ==>
        MatchesPlace(PickedAt(FullPicks(q), kinds, clusters, s)[s.m], q, clusters, s)
    {
      FullPicksAreMatches(q, clusters[s.c], kinds[s.k], ObjectAt(kinds, clusters, s));
    }
  }

  /** The result is the contribution of the object at this place. */
  ghost predicate MatchesPlace(r: SearchResult, q: Query, clusters: seq<Cluster>, s: Site) {
    && IsPlace(GlobalKinds(), clusters, s)
    && IsMatch(r, q, clusters[s.c], GlobalKinds()[s.k], ObjectAt(GlobalKinds(), clusters, s), s.m)
  }

  // ---------------------------------------------------------------- in short

  /** Every object of an ensured cluster whose lowered name has the lowered query as a part is found by both searches, by the
      quick one under a limit that cuts nothing off. */
  lemma MatchingNameIsFound(q: Query, clusters: seq<Cluster>, cl: Cluster, kind: Kind, x: Resource)
    requires cl in clusters && cl.ensured && cl.listing(kind).Some? && x in cl.listing(kind).value
    requires Occurs(q.lower(x.name), q.lower(q.text))
    ensures exists r :: r in Exhaustive(q, if kind == Node then OfNodes else if kind == Pod then OfPods else OfWorkloads, clusters)
                     && r in GlobalResults(q, clusters) && Shows(r, cl, kind, x, if kind == Pod then x.ip else "")
  {
    var t := if kind == Node then OfNodes else if kind == Pod then OfPods else OfWorkloads;
    var c :| 0 <= c < |clusters| && clusters[c] == cl;
    var k := KindIsOfType(kind);
    var i :| 0 <= i < |cl.listing(kind).value| && cl.listing(kind).value[i] == x;
    var r := FoundAt(q, t, clusters, Site(c, k, i, 0));
    InGlobal(q, t, clusters, r);
  }

  lemma KindIsOfType(kind: Kind) returns (k: nat)
    ensures var t := if kind == Node then OfNodes else if kind == Pod then OfPods else OfWorkloads;
            k < |QuickKinds(t)| && QuickKinds(t)[k] == kind
  {
    k := match kind
      case StatefulSet => 1
      case DaemonSet => 2
      case Rollout => 3
      case _ => 0;
  }

  lemma FoundAt(q: Query, t: ResourceType, clusters: seq<Cluster>, s: Site) returns (r: SearchResult)
    requires t != OfClusters && IsPlace(QuickKinds(t), clusters, s) && s.m == 0
    requires Occurs(q.lower(ObjectAt(QuickKinds(t), clusters, s).name), q.lower(q.text))
    ensures r in Exhaustive(q, t, clusters) && ShowsPlace(r, QuickKinds(t), clusters, s)
  {
    var sites := QuickListsEveryMatch(q, t, clusters);
    assert s in sites;
    var n :| 0 <= n < |sites| && sites[n] == s;
    r := Exhaustive(q, t, clusters)[n];
  }

  lemma InGlobal(q: Query, t: ResourceType, clusters: seq<Cluster>, r: SearchResult)
    requires r in Exhaustive(q, t, clusters)
    ensures r in GlobalResults(q, clusters)
  {
    GlobalIsQuickPlusExtras(q, clusters);
    assert r in multiset(Exhaustive(q, t, clusters));
    assert r in multiset(GlobalResults(q, clusters));
  }
}

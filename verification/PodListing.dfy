// Namespace permissions and the pod list: matchNamespace and its users, and GetPods with its exact scans,
// wildcard scans, deduplication, search and paging.

module PodListing {
  import opened Wrappers
  import opened GoStrings

  // ---------------------------------------------------------------- permission

  /** One allow-list entry against a namespace. */
  predicate EntryMatches(entry: string, namespace: string) {
    || entry == "*"
    || entry == namespace
    || (|entry| > 1 && entry[|entry| - 1] == '*' && HasPrefix(namespace, entry[..|entry| - 1]))
  }

  predicate MatchNamespace(namespace: string, allowed: seq<string>) {
    exists entry | entry in allowed :: EntryMatches(entry, namespace)
  }

  method MatchNamespaceLoop(namespace: string, allowed: seq<string>) returns (r: bool)
    ensures r == MatchNamespace(namespace, allowed)
  {
    for i := 0 to |allowed|
      invariant forall j | 0 <= j < i :: !EntryMatches(allowed[j], namespace)
    {
      var ns := allowed[i];
      if ns == "*" || ns == namespace {
        assert EntryMatches(ns, namespace);
        return true;
      }
      if |ns| > 1 && ns[|ns| - 1] == '*' {
        var prefix := ns[..|ns| - 1];
        if |namespace| >= |prefix| && namespace[..|prefix|] == prefix {
          assert EntryMatches(ns, namespace);
          return true;
        }
      }
    }
    return false;
  }

  /** The allow-list of a user; no permission record means an empty one. */
  function AllowedOf(permission: Option<seq<string>>): seq<string> {
    if permission.Some? then permission.value else []
  }

  method GetAllowedNamespaces(permission: Option<seq<string>>) returns (allowed: seq<string>, hasAll: bool)
    ensures allowed == AllowedOf(permission)
    ensures permission == None ==> allowed == [] && !hasAll
    ensures permission.Some? ==> allowed == permission.value && (hasAll <==> "*" in permission.value)
  {
    if permission == None {
      return [], false;
    }
    allowed := permission.value;
    for i := 0 to |allowed|
      invariant forall j | 0 <= j < i :: allowed[j] != "*"
    {
      if allowed[i] == "*" {
        return allowed, true;
      }
    }
    return allowed, false;
  }

  function Kept<T>(resources: seq<T>, keep: T -> bool): seq<T> {
    if resources == [] then []
    else (if keep(resources[0]) then [resources[0]] else []) + Kept(resources[1..], keep)
  }

  lemma {:induction false} KeptSnoc<T>(resources: seq<T>, last: T, keep: T -> bool)
    ensures Kept(resources + [last], keep) == Kept(resources, keep) + (if keep(last) then [last] else [])
  {
    if resources == [] {
      assert [last][1..] == [];
    } else {
      assert (resources + [last])[0] == resources[0] && (resources + [last])[1..] == resources[1..] + [last];
      KeptSnoc(resources[1..], last, keep);
      var own, end := if keep(resources[0]) then [resources[0]] else [], if keep(last) then [last] else [];
      assert own + (Kept(resources[1..], keep) + end) == own + Kept(resources[1..], keep) + end;
    }
  }

  lemma {:induction false} KeptMembers<T>(resources: seq<T>, keep: T -> bool)
    ensures forall x :: x in Kept(resources, keep) <==> x in resources && keep(x)
  {
    if resources != [] {
      KeptMembers(resources[1..], keep);
      assert forall x :: x in resources <==> x == resources[0] || x in resources[1..];
    }
  }

  /** An entry of a permission covers a namespace: it is the star, or the namespace, or a non-empty prefix of it and a
      star. */
  ghost predicate Covers(entry: string, namespace: string) {
    entry == "*" || entry == namespace || exists prefix :: prefix != "" && entry == prefix + "*" && prefix <= namespace
  }

  ghost predicate Permitted(permission: Option<seq<string>>, namespace: string) {
    permission.Some? && exists entry :: entry in permission.value && Covers(entry, namespace)
  }

  lemma PermittedIsMatch(permission: Option<seq<string>>, namespace: string)
    ensures Permitted(permission, namespace) <==> MatchNamespace(namespace, AllowedOf(permission))
  {
    forall entry ensures Covers(entry, namespace) <==> EntryMatches(entry, namespace) {
      CoversIsMatch(entry, namespace);
    }
  }

  lemma CoversIsMatch(entry: string, namespace: string)
    ensures Covers(entry, namespace) <==> EntryMatches(entry, namespace)
  {
    if |entry| > 1 && entry[|entry| - 1] == '*' {
      var prefix := entry[..|entry| - 1];
      assert entry == prefix + "*" && prefix != "";
    }
    if prefix :| prefix != "" && entry == prefix + "*" && prefix <= namespace {
      assert entry[..|entry| - 1] == prefix;
    }
  }

  ghost function PermissionTest<T>(permission: Option<seq<string>>, namespaceOf: T -> string): T -> bool {
    x => Permitted(permission, namespaceOf(x))
  }

  method FilterResourcesByNamespace<T>(permission: Option<seq<string>>, resources: seq<T>, namespaceOf: T -> string)
    returns (filtered: seq<T>)
    ensures filtered == Kept(resources, PermissionTest(permission, namespaceOf))
  {
    var allowed, hasAll := GetAllowedNamespaces(permission);
    ghost var keep := PermissionTest(permission, namespaceOf);
    forall x ensures keep(x) <==> MatchNamespace(namespaceOf(x), allowed) {
      PermittedIsMatch(permission, namespaceOf(x));
    }
    if hasAll {
      forall x ensures keep(x) {
        assert EntryMatches("*", namespaceOf(x));
      }
      KeptAll(resources, keep);
      return resources;
    }
    filtered := [];
    for i := 0 to |resources|
      invariant filtered == Kept(resources[..i], keep)
    {
      var matches := MatchNamespaceLoop(namespaceOf(resources[i]), allowed);
      if matches {
        filtered := filtered + [resources[i]];
      }
      KeptSnoc(resources[..i], resources[i], keep);
      assert resources[..i + 1] == resources[..i] + [resources[i]];
    }
    assert resources[..|resources|] == resources;
  }

  lemma {:induction false} KeptAll<T>(resources: seq<T>, keep: T -> bool)
    requires forall x | x in resources :: keep(x)
    ensures Kept(resources, keep) == resources
  {
    if resources != [] {
      KeptAll(resources[1..], keep);
    }
  }

  // ---------------------------------------------------------------- the pod cache

  datatype Pod = Pod(namespace: string, name: string, node: string, created: int)

  /** What one lister call answers: None is an error. The calls of one request are numbered; namespace "" lists
      all namespaces, as client-go has it. */
  type Lister = (nat, string) -> Option<seq<Pod>>

  /** Every answer holds exactly the selected pods of the snapshot, each once, in any order. */
  ghost predicate Faithful(lister: Lister, cache: set<Pod>, selected: Pod -> bool) {
    forall call, ns :: lister(call, ns).Some? ==>
      && DistinctKeys(lister(call, ns).value)
      && forall p :: p in lister(call, ns).value <==> p in cache && selected(p) && (ns == "" || p.namespace == ns)
  }

  ghost predicate NeverFails(lister: Lister) {
    forall call, ns :: lister(call, ns).Some?
  }

  /** Kubernetes keeps one pod per namespace and name, and namespaces are DNS labels. */
  ghost predicate ProperCache(cache: set<Pod>) {
    && (forall p, q | p in cache && q in cache && p.namespace == q.namespace && p.name == q.name :: p == q)
    && (forall p | p in cache :: '/' !in p.namespace)
  }

  function Key(p: Pod): string {
    p.namespace + "/" + p.name
  }

  lemma KeyIsInjective(p: Pod, q: Pod)
    requires '/' !in p.namespace && '/' !in q.namespace && Key(p) == Key(q)
    ensures p.namespace == q.namespace && p.name == q.name
  {
    var k := Key(p);
    assert k[|p.namespace|] == '/' && k[|q.namespace|] == '/';
    assert k[..|p.namespace|] == p.namespace && k[..|q.namespace|] == q.namespace;
    assert |p.namespace| == |q.namespace|;
    assert k[|p.namespace| + 1..] == p.name && k[|q.namespace| + 1..] == q.name;
  }

  lemma SameKeySamePod(cache: set<Pod>, p: Pod, q: Pod)
    requires ProperCache(cache) && p in cache && q in cache && Key(p) == Key(q)
    ensures p == q
  {
    KeyIsInjective(p, q);
  }

  predicate OnNode(nodeFilter: string, p: Pod) {
    nodeFilter == "" || p.node == nodeFilter
  }

  ghost predicate DistinctKeys(pods: seq<Pod>) {
    forall i, j | 0 <= i < j < |pods| :: Key(pods[i]) != Key(pods[j])
  }

  lemma {:induction false} KeptDistinct(pods: seq<Pod>, keep: Pod -> bool)
    requires DistinctKeys(pods)
    ensures DistinctKeys(Kept(pods, keep))
  {
    if pods != [] {
      KeptDistinct(pods[1..], keep);
      KeptMembers(pods[1..], keep);
      forall p | p in Kept(pods[1..], keep) ensures Key(p) != Key(pods[0]) {
        var j :| 0 <= j < |pods[1..]| && pods[1..][j] == p;
        assert pods[j + 1] == p;
      }
    }
  }

  ghost function NodeTest(nodeFilter: string): Pod -> bool {
    p => OnNode(nodeFilter, p)
  }

  method FilterNode(pods: seq<Pod>, nodeFilter: string) returns (r: seq<Pod>)
    ensures r == Kept(pods, NodeTest(nodeFilter))
  {
    r := [];
    for i := 0 to |pods|
      invariant r == Kept(pods[..i], NodeTest(nodeFilter))
    {
      KeptSnoc(pods[..i], pods[i], NodeTest(nodeFilter));
      assert pods[..i + 1] == pods[..i] + [pods[i]];
      if nodeFilter == "" || pods[i].node == nodeFilter {
        r := r + [pods[i]];
      }
    }
    assert pods[..|pods|] == pods;
  }

  // ---------------------------------------------------------------- the scans for a partial allow-list

  predicate IsWildcard(entry: string) {
    HasSuffix(entry, "*")
  }

  /** The pods that the i-th entry contributes. */
  predicate Contributes(allowed: seq<string>, lister: Lister, nodeFilter: string, i: nat, p: Pod)
    requires i < |allowed|
  {
    var entry := allowed[i];
    var answer := if IsWildcard(entry) then lister(|allowed| + i, "") else lister(i, entry);
    && answer.Some? && p in answer.value && OnNode(nodeFilter, p)
    && (IsWildcard(entry) ==> HasPrefix(p.namespace, TrimSuffix(entry, "*")))
  }

  ghost predicate Contributed(allowed: seq<string>, lister: Lister, nodeFilter: string, p: Pod) {
    exists i: nat :: i < |allowed| && Contributes(allowed, lister, nodeFilter, i, p)
  }

  method ExactScan(allowed: seq<string>, lister: Lister, nodeFilter: string) returns (pods: seq<Pod>)
    ensures forall p :: p in pods <==>
      exists i: nat :: i < |allowed| && !IsWildcard(allowed[i]) && Contributes(allowed, lister, nodeFilter, i, p)
  {
    pods := [];
    for i := 0 to |allowed|
      invariant forall p :: p in pods <==>
        exists j: nat :: j < i && !IsWildcard(allowed[j]) && Contributes(allowed, lister, nodeFilter, j, p)
    {
      ghost var before := pods;
      if !HasSuffix(allowed[i], "*") {
        var answer := lister(i, allowed[i]);
        if answer.Some? {
          var kept := FilterNode(answer.value, nodeFilter);
          KeptMembers(answer.value, NodeTest(nodeFilter));
          assert forall p :: p in kept <==> Contributes(allowed, lister, nodeFilter, i, p);
          pods := pods + kept;
        }
      }
      assert forall p :: p in pods <==>
        p in before || (!IsWildcard(allowed[i]) && Contributes(allowed, lister, nodeFilter, i, p));
    }
  }

  method WildcardScan(allowed: seq<string>, lister: Lister, nodeFilter: string) returns (pods: seq<Pod>)
    ensures forall p :: p in pods <==>
      exists i: nat :: i < |allowed| && IsWildcard(allowed[i]) && Contributes(allowed, lister, nodeFilter, i, p)
  {
    pods := [];
    for i := 0 to |allowed|
      invariant forall p :: p in pods <==>
        exists j: nat :: j < i && IsWildcard(allowed[j]) && Contributes(allowed, lister, nodeFilter, j, p)
    {
      ghost var before := pods;
      if HasSuffix(allowed[i], "*") {
        var prefix := TrimSuffix(allowed[i], "*");
        var answer := lister(|allowed| + i, "");
        if answer.Some? {
          var kept := FilterPrefix(answer.value, prefix, nodeFilter);
          KeptMembers(answer.value, PrefixTest(prefix, nodeFilter));
          assert forall p :: p in kept <==> Contributes(allowed, lister, nodeFilter, i, p);
          pods := pods + kept;
        }
      }
      assert forall p :: p in pods <==>
        p in before || (IsWildcard(allowed[i]) && Contributes(allowed, lister, nodeFilter, i, p));
    }
  }

  ghost function PrefixTest(prefix: string, nodeFilter: string): Pod -> bool {
    (p: Pod) => HasPrefix(p.namespace, prefix) && OnNode(nodeFilter, p)
  }

  method FilterPrefix(pods: seq<Pod>, prefix: string, nodeFilter: string) returns (r: seq<Pod>)
    ensures r == Kept(pods, PrefixTest(prefix, nodeFilter))
  {
    r := [];
    for i := 0 to |pods|
      invariant r == Kept(pods[..i], PrefixTest(prefix, nodeFilter))
    {
      KeptSnoc(pods[..i], pods[i], PrefixTest(prefix, nodeFilter));
      assert pods[..i + 1] == pods[..i] + [pods[i]];
      if HasPrefix(pods[i].namespace, prefix) {
        if nodeFilter == "" || pods[i].node == nodeFilter {
          r := r + [pods[i]];
        }
      }
    }
    assert pods[..|pods|] == pods;
  }

  /** The deduplication keeps one pod per key. */
  method Deduplicate(all: seq<Pod>) returns (unique: seq<Pod>)
    ensures DistinctKeys(unique)
    ensures forall p | p in unique :: p in all
    ensures forall p | p in all :: exists q :: q in unique && Key(q) == Key(p)
  {
    var seen: map<string, bool> := map[];
    unique := [];
    for i := 0 to |all|
      invariant DistinctKeys(unique) && seen.Keys == KeysOf(unique)
      invariant forall p | p in unique :: p in all
      invariant forall j | 0 <= j < i :: Key(all[j]) in seen
    {
      var key := all[i].namespace + "/" + all[i].name;
      if key !in seen {
        KeysOfOneMore(unique, all[i]);
        seen := seen[key := true];
        unique := unique + [all[i]];
      }
    }
  }

  function KeysOf(pods: seq<Pod>): set<string> {
    set p | p in pods :: Key(p)
  }

  lemma KeysOfOneMore(pods: seq<Pod>, p: Pod)
    requires DistinctKeys(pods) && Key(p) !in KeysOf(pods)
    ensures KeysOf(pods + [p]) == KeysOf(pods) + {Key(p)} && DistinctKeys(pods + [p])
  {
    assert p in pods + [p];
    assert forall q | q in pods :: q in pods + [p];
    forall i | 0 <= i < |pods| ensures Key(pods[i]) != Key(p) {
      assert Key(pods[i]) in KeysOf(pods);
    }
  }

  method ListPartial(allowed: seq<string>, lister: Lister, nodeFilter: string) returns (unique: seq<Pod>)
    ensures DistinctKeys(unique)
    ensures forall p | p in unique :: Contributed(allowed, lister, nodeFilter, p)
    ensures forall p | Contributed(allowed, lister, nodeFilter, p) :: exists q :: q in unique && Key(q) == Key(p)
  {
    var exact := ExactScan(allowed, lister, nodeFilter);
    var wildcard := WildcardScan(allowed, lister, nodeFilter);
    unique := Deduplicate(exact + wildcard);
    forall p | Contributed(allowed, lister, nodeFilter, p)
      ensures exists q :: q in unique && Key(q) == Key(p)
    {
      assert p in exact + wildcard;
    }
  }

  // ---------------------------------------------------------------- what the scans amount to

  /** What the scans treat as allowed. An empty entry lists every namespace. */
  predicate Scanned(namespace: string, allowed: seq<string>) {
    MatchNamespace(namespace, allowed) || "" in allowed
  }

  lemma EntryScan(entry: string, namespace: string)
    ensures (if IsWildcard(entry) then HasPrefix(namespace, TrimSuffix(entry, "*")) else entry == "" || namespace == entry)
       <==> EntryMatches(entry, namespace) || entry == ""
  {
    if entry != "" {
      assert entry[|entry| - 1..] == [entry[|entry| - 1]];
    }
  }

  /** For every order, repetition and overlap of entries: the scans contribute exactly the cached pods that pass
      the selector and the node filter and whose namespace the allow-list matches; plus, if the allow-list holds
      an empty entry, all others that pass the two filters. */
  lemma ScansMatchPermission(allowed: seq<string>, lister: Lister, nodeFilter: string, cache: set<Pod>, selected: Pod -> bool, p: Pod)
    requires Faithful(lister, cache, selected) && NeverFails(lister)
    ensures Contributed(allowed, lister, nodeFilter, p)
       <==> p in cache && selected(p) && OnNode(nodeFilter, p) && Scanned(p.namespace, allowed)
  {
    forall i: nat | i < |allowed|
      ensures Contributes(allowed, lister, nodeFilter, i, p)
         <==> p in cache && selected(p) && OnNode(nodeFilter, p) && (EntryMatches(allowed[i], p.namespace) || allowed[i] == "")
    {
      EntryScan(allowed[i], p.namespace);
      assert lister(i, allowed[i]).Some? && lister(|allowed| + i, "").Some?;
    }
    if p in cache && selected(p) && OnNode(nodeFilter, p) && Scanned(p.namespace, allowed) {
      var entry :| entry in allowed && (EntryMatches(entry, p.namespace) || entry == "");
      var i :| 0 <= i < |allowed| && allowed[i] == entry;
      assert Contributes(allowed, lister, nodeFilter, i, p);
    }
  }

  /** Also when lister calls fail, nothing outside the allow-list is listed. */
  lemma ScansStayAllowed(allowed: seq<string>, lister: Lister, nodeFilter: string, cache: set<Pod>, selected: Pod -> bool, i: nat, p: Pod)
    requires Faithful(lister, cache, selected) && i < |allowed| && Contributes(allowed, lister, nodeFilter, i, p)
    ensures p in cache && selected(p) && OnNode(nodeFilter, p) && Scanned(p.namespace, allowed)
  {
    EntryScan(allowed[i], p.namespace);
  }

  /** A user whose only entry is the empty one is permitted no namespace, and is listed every selected pod of every
      namespace. */
  lemma EmptyEntryListsEverything(lister: Lister, cache: set<Pod>, selected: Pod -> bool, p: Pod)
    requires Faithful(lister, cache, selected) && NeverFails(lister)
    requires p in cache && selected(p) && p.namespace != ""
    ensures !MatchNamespace(p.namespace, [""]) && Contributed([""], lister, "", p)
  {
    ScansMatchPermission([""], lister, "", cache, selected, p);
  }

  // ---------------------------------------------------------------- the whole request

  const TWO_63 := 0x8000_0000_0000_0000
  const TWO_64 := 0x1_0000_0000_0000_0000

  /** Go's int. */
  type Int64 = n: int | -TWO_63 <= n < TWO_63

  datatype Request = Request(namespace: string, nodeName: string, fieldSelector: string, search: string, page: Int64, pageSize: Int64)

  const NODE_FIELD := "spec.nodeName="

  function NodeFilterOf(r: Request): string {
    if r.nodeName != "" then r.nodeName
    else if r.fieldSelector != "" && HasPrefix(r.fieldSelector, NODE_FIELD) then TrimPrefix(r.fieldSelector, NODE_FIELD)
    else ""
  }

  /** The case-insensitive search; `lower` is strings.ToLower. */
  ghost predicate Found(lower: string -> string, search: string, p: Pod) {
    || search == ""
    || Occurs(lower(p.name), lower(search)) || Occurs(lower(p.namespace), lower(search)) || Occurs(lower(p.node), lower(search))
  }

  ghost function SearchTest(lower: string -> string, search: string): Pod -> bool {
    p => Found(lower, search, p)
  }

  method SearchPods(pods: seq<Pod>, search: string, lower: string -> string) returns (r: seq<Pod>)
    ensures r == Kept(pods, SearchTest(lower, search))
  {
    ghost var keep := SearchTest(lower, search);
    if search == "" {
      KeptAll(pods, keep);
      return pods;
    }
    r := [];
    for i := 0 to |pods|
      invariant r == Kept(pods[..i], keep)
    {
      KeptSnoc(pods[..i], pods[i], keep);
      assert pods[..i + 1] == pods[..i] + [pods[i]];
      if LastIndex(lower(pods[i].name), lower(search)) != -1
      || LastIndex(lower(pods[i].namespace), lower(search)) != -1
      || LastIndex(lower(pods[i].node), lower(search)) != -1
      {
        r := r + [pods[i]];
      }
    }
    assert pods[..|pods|] == pods;
  }

  /** What a user may see: a namespace on request if permitted, everything permitted otherwise. */
  predicate MaySee(allowed: seq<string>, requested: string, namespace: string) {
    if requested != "" then namespace == requested
    else MatchNamespace(namespace, allowed) || ("" in allowed && "*" !in allowed)
  }

  /** The pods a request asks for, before the search. */
  ghost predicate Wanted(r: Request, cache: set<Pod>, selected: Pod -> bool, allowed: seq<string>, p: Pod) {
    p in cache && selected(p) && OnNode(NodeFilterOf(r), p) && MaySee(allowed, r.namespace, p.namespace)
  }

  /** The three branches that fetch pods. In the two with a single lister call an error ends the request; the scans
      skip a failing call, so then the answer may only be a part. */
  method FetchPods(r: Request, allowed: seq<string>, hasAll: bool, lister: Lister, ghost cache: set<Pod>, ghost selected: Pod -> bool)
    returns (pods: Option<seq<Pod>>)
    requires Faithful(lister, cache, selected) && ProperCache(cache)
    requires hasAll <==> "*" in allowed
    ensures pods == None <==> (r.namespace != "" || hasAll) && lister(0, r.namespace) == None
    ensures pods.Some? ==> DistinctKeys(pods.value) && forall p | p in pods.value :: Wanted(r, cache, selected, allowed, p)
    ensures pods.Some? && (r.namespace != "" || hasAll || NeverFails(lister)) ==>
      forall p | Wanted(r, cache, selected, allowed, p) :: p in pods.value
  {
    if r.namespace != "" || hasAll {
      var answer := lister(0, r.namespace);
      if answer == None {
        return None;
      }
      var kept := FilterNode(answer.value, NodeFilterOf(r));
      KeptDistinct(answer.value, NodeTest(NodeFilterOf(r)));
      KeptMembers(answer.value, NodeTest(NodeFilterOf(r)));
      assert hasAll ==> forall ns :: EntryMatches("*", ns);
      return Some(kept);
    }
    var unique := ListPartial(allowed, lister, NodeFilterOf(r));
    forall p { PartialIsWanted(r, allowed, lister, cache, selected, p); }
    if NeverFails(lister) {
      OnePerKeyIsAll(unique, cache, p => Wanted(r, cache, selected, allowed, p));
    }
    return Some(unique);
  }

  lemma PartialIsWanted(r: Request, allowed: seq<string>, lister: Lister, cache: set<Pod>, selected: Pod -> bool, p: Pod)
    requires Faithful(lister, cache, selected) && r.namespace == "" && "*" !in allowed
    ensures Contributed(allowed, lister, NodeFilterOf(r), p) ==> Wanted(r, cache, selected, allowed, p)
    ensures NeverFails(lister) && Wanted(r, cache, selected, allowed, p) ==> Contributed(allowed, lister, NodeFilterOf(r), p)
  {
    var node := NodeFilterOf(r);
    if Contributed(allowed, lister, node, p) {
      var i: nat :| i < |allowed| && Contributes(allowed, lister, node, i, p);
      ScansStayAllowed(allowed, lister, node, cache, selected, i, p);
    }
    if NeverFails(lister) {
      ScansMatchPermission(allowed, lister, node, cache, selected, p);
    }
  }

  /** Keeping one pod per key keeps every pod, since in the cache a key has one pod. */
  lemma OnePerKeyIsAll(unique: seq<Pod>, cache: set<Pod>, test: Pod -> bool)
    requires ProperCache(cache)
    requires forall p | p in unique || test(p) :: p in cache
    requires forall p | test(p) :: exists q :: q in unique && Key(q) == Key(p)
    ensures forall p | test(p) :: p in unique
  {
    forall p | test(p) ensures p in unique {
      var q :| q in unique && Key(q) == Key(p);
      SameKeySamePod(cache, p, q);
    }
  }

  // ---------------------------------------------------------------- paging

  /** Arithmetic on 64 bits wraps around. */
  function Wrap64(n: int): Int64 {
    var r := n % TWO_64;
    if r >= TWO_63 then r - TWO_64 else r
  }

  lemma WrapFits(n: int)
    ensures -TWO_63 <= n < TWO_63 ==> Wrap64(n) == n
    ensures TWO_63 <= n < TWO_64 ==> Wrap64(n) == n - TWO_64
  {
  }

  function Start(page: Int64, pageSize: Int64): Int64 {
    Wrap64(Wrap64(page - 1) * pageSize)
  }

  function End(page: Int64, pageSize: Int64): Int64 {
    Wrap64(Start(page, pageSize) + pageSize)
  }

  function Min(a: int, b: int): int {
    if a < b then a else b
  }

  /** The slice pods[start:end] of the paging code; None where Go panics. */
  function PageOf<T>(pods: seq<T>, page: Int64, pageSize: Int64): Option<seq<T>> {
    Slice(pods, Start(page, pageSize), End(page, pageSize))
  }

  function Slice<T>(pods: seq<T>, start: int, end: int): Option<seq<T>> {
    var s := if start > |pods| then |pods| else start;
    var e := if end > |pods| then |pods| else end;
    if 0 <= s <= e then Some(pods[s..e]) else None
  }

  lemma Products(page: int, pageSize: int)
    requires page >= 1 && pageSize >= 0
    ensures (page - 1) * pageSize >= 0 && page * pageSize == (page - 1) * pageSize + pageSize
  {
  }

  /** What a page is meant to hold: as many pods as fit, after the first `skipped`. */
  function PageAfter<T>(pods: seq<T>, skipped: nat, pageSize: nat): seq<T> {
    pods[Min(skipped, |pods|)..Min(skipped + pageSize, |pods|)]
  }

  /** Exactly when the slice panics, for all parameters; and, where no product leaves 64 bits, which parameters these are. */
  lemma PagePanics<T>(pods: seq<T>, page: Int64, pageSize: Int64)
    ensures PageOf(pods, page, pageSize) == None <==>
      Start(page, pageSize) < 0 || End(page, pageSize) < Min(Start(page, pageSize), |pods|)
    ensures page > -TWO_63 && -TWO_63 <= (page - 1) * pageSize < TWO_63 && -TWO_63 <= page * pageSize < TWO_63 ==>
      (PageOf(pods, page, pageSize) == None <==>
         (page - 1) * pageSize < 0 || (pageSize < 0 && page * pageSize < |pods|))
  {
    WrapFits(page - 1);
    WrapFits((page - 1) * pageSize);
    assert page * pageSize == (page - 1) * pageSize + pageSize;
    WrapFits(page * pageSize);
  }

  /** A page that is not a number counts as 0, and panics for every page size of at least 1. */
  lemma UnparsablePagePanics<T>(pods: seq<T>, pageSize: Int64)
    requires pageSize >= 1
    ensures PageOf(pods, 0, pageSize) == None
  {
    WrapFits(-1);
    WrapFits(-1 * pageSize);
  }

  /** For every page and page size of at least 1: the code returns the intended page exactly when its end fits into
      64 bits, or the wrapped bounds happen to lie behind the list. */
  lemma PageIsExact<T>(pods: seq<T>, page: Int64, pageSize: Int64, skipped: nat)
    requires page >= 1 && pageSize >= 1 && |pods| < TWO_63 && skipped == (page - 1) * pageSize
    ensures PageOf(pods, page, pageSize) == Some(PageAfter(pods, skipped, pageSize)) <==>
      skipped + pageSize < TWO_63 || (Start(page, pageSize) >= |pods| && End(page, pageSize) >= |pods|)
  {
    WrapFits(page - 1);
    WrapFits(skipped);
    SliceIsExact(pods, skipped, pageSize, Start(page, pageSize), End(page, pageSize));
  }

  lemma SliceIsExact<T>(pods: seq<T>, skipped: nat, pageSize: Int64, start: Int64, end: Int64)
    requires pageSize >= 1 && |pods| < TWO_63
    requires skipped < TWO_63 ==> start == skipped
    requires end == Wrap64(start + pageSize)
    ensures Slice(pods, start, end) == Some(PageAfter(pods, skipped, pageSize)) <==>
      skipped + pageSize < TWO_63 || (start >= |pods| && end >= |pods|)
  {
    WrapFits(start + pageSize);
    if skipped + pageSize >= TWO_63 && skipped >= TWO_63 {
      assert PageAfter(pods, skipped, pageSize) == [];
    }
  }

  /** A product behind 64 bits can wrap around to the beginning: this page is the first one once more. */
  lemma HugePageIsTheFirst<T>(pods: seq<T>)
    ensures PageOf(pods, 0x4000_0000_0000_0001, 4) == PageOf(pods, 1, 4)
  {
    WrapFits(0x4000_0000_0000_0000);
    assert Start(0x4000_0000_0000_0001, 4) == Wrap64(TWO_64) == 0;
    assert Start(1, 4) == 0;
  }

  function Pages<T>(pods: seq<T>, pageSize: Int64, count: nat): seq<T>
    requires count < TWO_63
  {
    if count == 0 then []
    else Pages(pods, pageSize, count - 1) + (match PageOf(pods, count, pageSize) case Some(p) => p case None => [])
  }

  /** The pages, in order, are the list cut at multiples of the page size, as long as the bounds fit into 64 bits: nothing
      is lost, repeated or reordered. */
  lemma {:induction false} PagesPartition<T>(pods: seq<T>, pageSize: Int64, count: nat)
    requires pageSize >= 1 && |pods| < TWO_63 && count < TWO_63 && count * pageSize < TWO_63
    ensures Pages(pods, pageSize, count) == pods[..Min(count * pageSize, |pods|)]
    ensures count > 0 ==> PageOf(pods, count, pageSize).Some? && |PageOf(pods, count, pageSize).value| <= pageSize
  {
    if count > 0 {
      Products(count, pageSize);
      var skipped := (count - 1) * pageSize;
      PagesPartition(pods, pageSize, count - 1);
      PageIsExact(pods, count, pageSize, skipped);
      OnePageMore(pods, skipped, pageSize);
    }
  }

  lemma OnePageMore<T>(pods: seq<T>, skipped: nat, pageSize: nat)
    ensures pods[..Min(skipped, |pods|)] + PageAfter(pods, skipped, pageSize) == pods[..Min(skipped + pageSize, |pods|)]
  {
  }

  // ---------------------------------------------------------------- the handler

  datatype Response = Forbidden | ListFailed | Panics | Listed(items: seq<Pod>, total: nat)

  ghost predicate NewestFirst(pods: seq<Pod>) {
    forall i, j | 0 <= i < j < |pods| :: pods[i].created >= pods[j].created
  }

  /** What a comparison has to be to sort by it. */
  ghost predicate IsOrder(less: (Pod, Pod) -> bool) {
    && (forall a, b | less(a, b) :: !less(b, a))
    && (forall a, b, c | !less(a, b) && !less(b, c) :: !less(a, c))
  }

  type Sort = (seq<Pod>, (Pod, Pod) -> bool) -> seq<Pod>

  /** sort.Slice: a reordering in which nothing stands behind what it should precede; it need not be stable. */
  ghost predicate Sorts(sort: Sort) {
    forall s, less | IsOrder(less) ::
      multiset(sort(s, less)) == multiset(s) && forall i, j | 0 <= i < j < |s| :: j < |sort(s, less)| && !less(sort(s, less)[j], sort(s, less)[i])
  }

  /** The comparison of the source: a pod goes before those created earlier. */
  function CreatedAfter(): (Pod, Pod) -> bool {
    (p: Pod, q: Pod) => p.created > q.created
  }

  lemma SortedPods(sort: Sort, pods: seq<Pod>)
    requires Sorts(sort)
    ensures multiset(sort(pods, CreatedAfter())) == multiset(pods) && NewestFirst(sort(pods, CreatedAfter()))
  {
    var sorted := sort(pods, CreatedAfter());
    assert IsOrder(CreatedAfter());
    assert |sorted| == |multiset(sorted)| == |multiset(pods)| == |pods|;
    forall i, j | 0 <= i < j < |sorted| ensures sorted[i].created >= sorted[j].created {
      assert !CreatedAfter()(sorted[j], sorted[i]);
    }
  }

  lemma ReorderedKeys(a: seq<Pod>, b: seq<Pod>)
    requires DistinctKeys(a) && multiset(a) == multiset(b)
    ensures DistinctKeys(b) && forall p :: p in b <==> p in a
  {
    forall p ensures p in b <==> p in a {
      assert p in a <==> p in multiset(a);
      assert p in b <==> p in multiset(b);
    }
    forall i, j | 0 <= i < j < |b| ensures Key(b[i]) != Key(b[j]) {
      assert b[i] in a && b[j] in a;
      if b[i] == b[j] {
        assert b == b[..j] + [b[j]] + b[j + 1..];
        assert b[i] in b[..j];
        assert multiset(b)[b[i]] >= 2;
        CountedOnce(a, b[i]);
      }
    }
  }

  lemma {:induction false} CountedOnce(a: seq<Pod>, p: Pod)
    requires DistinctKeys(a)
    ensures multiset(a)[p] <= 1
  {
    if a != [] {
      CountedOnce(a[1..], p);
      assert a == [a[0]] + a[1..];
      forall q | q in a[1..] ensures Key(q) != Key(a[0]) {
        var j :| 0 <= j < |a[1..]| && a[1..][j] == q;
        assert a[j + 1] == q;
      }
    }
  }

  /** What a request is to be answered with, before sorting and paging: the pods that the label selector selects; of the node,
      when one is named as such or in the field selector; in the requested namespace, or else in those the permission covers,
      or in any if it has an empty entry; and with the search text as a part of name, namespace or node, in any case. */
  ghost predicate Asked(r: Request, permission: Option<seq<string>>, cache: set<Pod>, selected: Pod -> bool, lower: string -> string, p: Pod) {
    && p in cache && selected(p)
    && (r.nodeName != "" ==> p.node == r.nodeName)
    && (forall node | r.nodeName == "" && node != "" && r.fieldSelector == "spec.nodeName=" + node :: p.node == node)
    && (if r.namespace != "" then p.namespace == r.namespace
        else Permitted(permission, p.namespace) || (permission.Some? && "" in permission.value))
    && (r.search == ""
        || Occurs(lower(p.name), lower(r.search)) || Occurs(lower(p.namespace), lower(r.search)) || Occurs(lower(p.node), lower(r.search)))
  }

  lemma NodeIsFiltered(r: Request, p: Pod)
    ensures OnNode(NodeFilterOf(r), p)
       <==> (r.nodeName != "" ==> p.node == r.nodeName)
            && (forall node | r.nodeName == "" && node != "" && r.fieldSelector == "spec.nodeName=" + node :: p.node == node)
  {
    if HasPrefix(r.fieldSelector, NODE_FIELD) {
      var named := TrimPrefix(r.fieldSelector, NODE_FIELD);
      assert r.fieldSelector == "spec.nodeName=" + named;
    }
    forall node: string | r.fieldSelector == "spec.nodeName=" + node ensures TrimPrefix(r.fieldSelector, NODE_FIELD) == node {
      assert HasPrefix(r.fieldSelector, NODE_FIELD);
    }
  }

  lemma AskedIsWantedAndFound(r: Request, permission: Option<seq<string>>, cache: set<Pod>, selected: Pod -> bool, lower: string -> string, p: Pod)
    ensures Asked(r, permission, cache, selected, lower, p)
       <==> Wanted(r, cache, selected, AllowedOf(permission), p) && Found(lower, r.search, p)
  {
    NodeIsFiltered(r, p);
    PermittedIsMatch(permission, p.namespace);
    assert permission.Some? && "*" in permission.value ==> EntryMatches("*", p.namespace);
  }

  /** `all` is the list the page is cut from. */
  method GetPods(r: Request, permission: Option<seq<string>>, lister: Lister, lower: string -> string, sort: Sort,
                 ghost cache: set<Pod>, ghost selected: Pod -> bool)
    returns (response: Response, ghost all: seq<Pod>)
    requires Faithful(lister, cache, selected) && ProperCache(cache) && Sorts(sort)
    ensures response == Forbidden <==> r.namespace != "" && !Permitted(permission, r.namespace)
    ensures response == ListFailed <==>
      && response != Forbidden && lister(0, r.namespace) == None
      && (r.namespace != "" || (permission.Some? && "*" in permission.value))
    ensures response.Panics? || response.Listed? ==>
      match PageOf(all, r.page, r.pageSize)
      case None => response.Panics?
      case Some(items) => response == Listed(items, |all|)
    ensures response.Listed? ==>
      DistinctKeys(all) && NewestFirst(all) && forall p | p in all :: Asked(r, permission, cache, selected, lower, p)
    ensures response.Listed? && NeverFails(lister) ==> forall p | Asked(r, permission, cache, selected, lower, p) :: p in all
  {
    all := [];
    PermittedIsMatch(permission, r.namespace);
    var allowed, hasAll := GetAllowedNamespaces(permission);
    if r.namespace != "" {
      var access := MatchNamespaceLoop(r.namespace, allowed);
      assert hasAll ==> EntryMatches("*", r.namespace);
      if !hasAll && !access {
        return Forbidden, all;
      }
    }
    var fetched := FetchPods(r, allowed, hasAll, lister, cache, selected);
    if fetched == None {
      return ListFailed, all;
    }
    var pods := SearchPods(fetched.value, r.search, lower);
    KeptDistinct(fetched.value, SearchTest(lower, r.search));
    KeptMembers(fetched.value, SearchTest(lower, r.search));
    SortedPods(sort, pods);
    ReorderedKeys(pods, sort(pods, CreatedAfter()));
    pods := sort(pods, CreatedAfter());
    all := pods;
    forall p ensures Asked(r, permission, cache, selected, lower, p) <==> Wanted(r, cache, selected, allowed, p) && Found(lower, r.search, p) {
      AskedIsWantedAndFound(r, permission, cache, selected, lower, p);
    }
    match PageOf(pods, r.page, r.pageSize)
    case None => response := Panics;
    case Some(items) => response := Listed(items, |pods|);
  }

  /** The scans of a partial allow-list equal the one-pass filter, exactly when the empty entry adds nothing. */
  lemma ScansEqualFilter(allowed: seq<string>, lister: Lister, nodeFilter: string, cache: set<Pod>, selected: Pod -> bool, listing: seq<Pod>)
    requires Faithful(lister, cache, selected) && NeverFails(lister)
    requires forall p :: p in listing <==> p in cache && selected(p) && OnNode(nodeFilter, p)
    ensures (forall p :: Contributed(allowed, lister, nodeFilter, p)
                    <==> p in Kept(listing, (q: Pod) => MatchNamespace(q.namespace, allowed)))
       <==> ("" in allowed ==> forall p | p in listing :: MatchNamespace(p.namespace, allowed))
  {
    KeptMembers(listing, (q: Pod) => MatchNamespace(q.namespace, allowed));
    forall p
      ensures Contributed(allowed, lister, nodeFilter, p)
         <==> p in listing && Scanned(p.namespace, allowed)
    {
      ScansMatchPermission(allowed, lister, nodeFilter, cache, selected, p);
    }
  }
}

/**
  The transitive dependency gate: no client-side package reaches a deep crate, and the frontend
  apps reach the IPC crate only through the client SDK.
 */
module DepGate {
  import opened Wrappers
  import opened DepGraph
  import opened Text

  const FRONTEND_APPS: seq<Node> := ["protonwire-cli", "protonwire-tui", "protonwire-gui"]
  const SDK: Node := "protonwire-client"
  const IPC: Node := "protonwire-ipc"
  const CLIENT_SIDE: seq<Node> := FRONTEND_APPS + [SDK]
  const DEEP_DEPS: seq<Node> :=
    ["protonwire-core", "protonwire-net", "protonwire-store", "protonwire-protocol", "protonwire-api",
     "protonwire-policy", "protonwire-pf", "protun", "muon"]

  datatype Violation =
    | Missing(root: Node)
    | ReachesDeep(root: Node, dep: Node, route: seq<Node>)
    | BypassesSdk(root: Node, route: seq<Node>)

  /** A violation names something that is really there. */
  ghost predicate Justified(g: Graph, v: Violation) {
    match v
    case Missing(root) => root in CLIENT_SIDE && root !in g
    case ReachesDeep(root, dep, route) =>
      root in CLIENT_SIDE && dep in DEEP_DEPS && IsRoute(g, root, None, dep, route)
    case BypassesSdk(root, route) =>
      root in FRONTEND_APPS && IsRoute(g, root, Some(SDK), IPC, route) && SDK !in route
  }

  ghost predicate DeepFree(g: Graph, root: Node) {
    forall p :: IsPath(g, p) && p[0] == root ==> Last(p) !in DEEP_DEPS
  }

  ghost predicate OnlyThroughSdk(g: Graph, app: Node) {
    forall p :: IsPath(g, p) && p[0] == app && Last(p) == IPC ==> SDK in p
  }

  /** What the gate is for, stated on paths alone. */
  ghost predicate Admissible(g: Graph) {
    && (forall root :: root in CLIENT_SIDE ==> root in g && DeepFree(g, root))
    && (forall app :: app in FRONTEND_APPS ==> OnlyThroughSdk(g, app))
  }

  lemma DeepFreeIsUnreachable(g: Graph, root: Node)
    ensures DeepFree(g, root) <==> forall dep :: dep in DEEP_DEPS ==> !Reaches(g, root, None, dep)
  {
    forall p | IsPath(g, p) && p[0] == root ensures Reaches(g, root, None, Last(p)) {
      assert IsOpenPath(g, None, p);
    }
  }

  lemma IpcIsNotSdk()
    ensures IPC != SDK
  {
    assert |IPC| == 14 && |SDK| == 17;
  }

  /** A path that avoids going on from the SDK avoids it altogether, unless it ends there. */
  lemma OpenPathAvoidsSdk(g: Graph, p: seq<Node>)
    requires IsOpenPath(g, Some(SDK), p) && Last(p) == IPC
    ensures SDK !in p
  {
    IpcIsNotSdk();
    forall i | 0 <= i < |p| ensures p[i] != SDK {
      if i == |p| - 1 {
        assert p[i] == IPC;
      }
    }
  }

  lemma SdkIsTheOnlyWay(g: Graph, app: Node)
    ensures OnlyThroughSdk(g, app) <==> !Reaches(g, app, Some(SDK), IPC)
  {
    forall p | IsPath(g, p) && p[0] == app && Last(p) == IPC && SDK !in p
      ensures Reaches(g, app, Some(SDK), IPC)
    {
      assert IsOpenPath(g, Some(SDK), p);
    }
    forall p | IsOpenPath(g, Some(SDK), p) && p[0] == app && Last(p) == IPC
      ensures SDK !in p
    {
      OpenPathAvoidsSdk(g, p);
    }
  }

  ghost predicate NamesDeep(violations: seq<Violation>, root: Node, dep: Node) {
    exists route :: ReachesDeep(root, dep, route) in violations
  }

  ghost predicate NamesBypass(violations: seq<Violation>, app: Node) {
    exists route :: BypassesSdk(app, route) in violations
  }

  /** Nothing wrong with a client-side root goes unreported: its absence, or each deep crate it reaches. */
  ghost predicate RootReported(g: Graph, root: Node, violations: seq<Violation>) {
    && (root !in g ==> Missing(root) in violations)
    && (root in g ==>
          forall dep :: dep in DEEP_DEPS && Reaches(g, root, None, dep) ==> NamesDeep(violations, root, dep))
  }

  ghost predicate AppReported(g: Graph, app: Node, violations: seq<Violation>) {
    app in g && !OnlyThroughSdk(g, app) ==> NamesBypass(violations, app)
  }

  lemma MoreReports(g: Graph, violations: seq<Violation>, more: seq<Violation>)
    ensures forall root :: RootReported(g, root, violations) || RootReported(g, root, more) ==>
              RootReported(g, root, violations + more)
    ensures forall app :: AppReported(g, app, violations) || AppReported(g, app, more) ==>
              AppReported(g, app, violations + more)
  {
    var all := violations + more;
    forall root, dep | NamesDeep(violations, root, dep) || NamesDeep(more, root, dep)
      ensures NamesDeep(all, root, dep)
    {
      var route :| ReachesDeep(root, dep, route) in violations || ReachesDeep(root, dep, route) in more;
      assert ReachesDeep(root, dep, route) in all;
    }
    forall app | NamesBypass(violations, app) || NamesBypass(more, app) ensures NamesBypass(all, app) {
      var route :| BypassesSdk(app, route) in violations || BypassesSdk(app, route) in more;
      assert BypassesSdk(app, route) in all;
    }
  }

  /** The crates of `deps` that the root reaches, one by one, each with its route. */
  method CheckDeep(g: Graph, root: Node, deps: seq<Node>) returns (violations: seq<Violation>)
    ensures violations == [] <==> forall dep :: dep in deps ==> !Reaches(g, root, None, dep)
    ensures forall v :: v in violations ==>
              v.ReachesDeep? && v.root == root && v.dep in deps && IsRoute(g, root, None, v.dep, v.route)
    ensures forall dep :: dep in deps && Reaches(g, root, None, dep) ==> NamesDeep(violations, root, dep)
  {
    violations := [];
    var routes := ClosureRoutes(g, root, None);
    for i := 0 to |deps|
      invariant violations == [] <==> forall j :: 0 <= j < i ==> !Reaches(g, root, None, deps[j])
      invariant forall v :: v in violations ==>
                  v.ReachesDeep? && v.root == root && v.dep in deps && IsRoute(g, root, None, v.dep, v.route)
      invariant forall j :: 0 <= j < i && Reaches(g, root, None, deps[j]) ==> NamesDeep(violations, root, deps[j])
    {
      var dep := deps[i];
      if dep in routes {
        DeepNamed(violations, root, dep, routes[dep]);
        violations := violations + [ReachesDeep(root, dep, routes[dep])];
      }
    }
  }

  lemma DeepNamed(violations: seq<Violation>, root: Node, dep: Node, route: seq<Node>)
    ensures NamesDeep(violations + [ReachesDeep(root, dep, route)], root, dep)
    ensures forall d :: NamesDeep(violations, root, d) ==>
              NamesDeep(violations + [ReachesDeep(root, dep, route)], root, d)
  {
    var all := violations + [ReachesDeep(root, dep, route)];
    assert ReachesDeep(root, dep, route) in all;
    forall d | NamesDeep(violations, root, d) ensures NamesDeep(all, root, d) {
      var p :| ReachesDeep(root, d, p) in violations;
      assert ReachesDeep(root, d, p) in all;
    }
  }

  /** The first loop's body: what one client-side root contributes. */
  method CheckClientSide(g: Graph, root: Node) returns (violations: seq<Violation>)
    requires root in CLIENT_SIDE
    ensures violations == [] <==> root in g && DeepFree(g, root)
    ensures forall v :: v in violations ==> Justified(g, v)
    ensures RootReported(g, root, violations)
  {
    if root !in g {
      return [Missing(root)];
    }
    violations := CheckDeep(g, root, DEEP_DEPS);
    DeepFreeIsUnreachable(g, root);
  }

  /** The second loop's body. */
  method CheckApp(g: Graph, app: Node) returns (violations: seq<Violation>)
    requires app in FRONTEND_APPS
    ensures app in g ==> (violations == [] <==> OnlyThroughSdk(g, app))
    ensures forall v :: v in violations ==> Justified(g, v)
    ensures AppReported(g, app, violations)
  {
    violations := [];
    if app !in g {
      return;
    }
    var routes := ClosureRoutes(g, app, Some(SDK));
    if IPC in routes {
      OpenPathAvoidsSdk(g, routes[IPC]);
      violations := [BypassesSdk(app, routes[IPC])];
      assert BypassesSdk(app, routes[IPC]) in violations;
    }
    SdkIsTheOnlyWay(g, app);
  }

  /** The first loop. */
  method CheckRoots(g: Graph) returns (violations: seq<Violation>)
    ensures violations == [] <==> forall root :: root in CLIENT_SIDE ==> root in g && DeepFree(g, root)
    ensures forall v :: v in violations ==> Justified(g, v)
    ensures forall root :: root in CLIENT_SIDE ==> RootReported(g, root, violations)
  {
    violations := [];
    for i := 0 to |CLIENT_SIDE|
      invariant violations == [] <==> forall j :: 0 <= j < i ==> CLIENT_SIDE[j] in g && DeepFree(g, CLIENT_SIDE[j])
      invariant forall v :: v in violations ==> Justified(g, v)
      invariant forall j :: 0 <= j < i ==> RootReported(g, CLIENT_SIDE[j], violations)
    {
      var found := CheckClientSide(g, CLIENT_SIDE[i]);
      MoreReports(g, violations, found);
      violations := violations + found;
    }
  }

  /** The second loop. */
  method CheckApps(g: Graph) returns (violations: seq<Violation>)
    ensures (forall app :: app in FRONTEND_APPS ==> app in g) ==>
              (violations == [] <==> forall app :: app in FRONTEND_APPS ==> OnlyThroughSdk(g, app))
    ensures forall v :: v in violations ==> Justified(g, v)
    ensures forall app :: app in FRONTEND_APPS ==> AppReported(g, app, violations)
  {
    violations := [];
    for i := 0 to |FRONTEND_APPS|
      invariant (forall app :: app in FRONTEND_APPS ==> app in g) ==>
                  (violations == [] <==> forall j :: 0 <= j < i ==> OnlyThroughSdk(g, FRONTEND_APPS[j]))
      invariant forall v :: v in violations ==> Justified(g, v)
      invariant forall j :: 0 <= j < i ==> AppReported(g, FRONTEND_APPS[j], violations)
    {
      var found := CheckApp(g, FRONTEND_APPS[i]);
      MoreReports(g, violations, found);
      violations := violations + found;
    }
  }

  /** The gate reports nothing exactly for an admissible graph, only real routes, and every breach. */
  method TransitiveForbiddenEdges(g: Graph) returns (violations: seq<Violation>)
    ensures violations == [] <==> Admissible(g)
    ensures forall v :: v in violations ==> Justified(g, v)
    ensures forall root :: root in CLIENT_SIDE ==> RootReported(g, root, violations)
    ensures forall app :: app in FRONTEND_APPS ==> AppReported(g, app, violations)
  {
    var roots := CheckRoots(g);
    var apps := CheckApps(g);
    AppsAreClientSide();
    MoreReports(g, roots, apps);
    violations := roots + apps;
  }

  lemma AppsAreClientSide()
    ensures forall app :: app in FRONTEND_APPS ==> app in CLIENT_SIDE
  {
    assert CLIENT_SIDE == FRONTEND_APPS + [SDK];
  }

  // ---------------------------------------------------------------------------------------
  // Package ids and the names that merge them

  type Id = string

  datatype Package = Package(id: Id, name: Node)

  datatype ResolveNode = ResolveNode(id: Id, dependencies: seq<Id>)

  datatype Metadata = Metadata(packages: seq<Package>, resolve: Option<seq<ResolveNode>>)

  function NamesOf(packages: seq<Package>): map<Id, Node> {
    if packages == [] then map[]
    else
      var last := packages[|packages| - 1];
      NamesOf(packages[..|packages| - 1])[last.id := last.name]
  }

  function NamedDeps(names: map<Id, Node>, ids: seq<Id>): seq<Node> {
    if ids == [] then []
    else (if ids[0] in names then [names[ids[0]]] else []) + NamedDeps(names, ids[1..])
  }

  function AddNode(g: Graph, names: map<Id, Node>, node: ResolveNode): Graph {
    if node.id !in names then g
    else
      var name := names[node.id];
      g[name := (if name in g then g[name] else []) + NamedDeps(names, node.dependencies)]
  }

  function AdjacencyOf(names: map<Id, Node>, nodes: seq<ResolveNode>): Graph {
    if nodes == [] then map[]
    else AddNode(AdjacencyOf(names, nodes[..|nodes| - 1]), names, nodes[|nodes| - 1])
  }

  method NamePackages(packages: seq<Package>) returns (names: map<Id, Node>)
    ensures names == NamesOf(packages)
  {
    names := map[];
    for i := 0 to |packages|
      invariant names == NamesOf(packages[..i])
    {
      assert packages[..i + 1][..i] == packages[..i];
      names := names[packages[i].id := packages[i].name];
    }
    assert packages[..|packages|] == packages;
  }

  method MergeNodes(names: map<Id, Node>, nodes: seq<ResolveNode>) returns (g: Graph)
    ensures g == AdjacencyOf(names, nodes)
  {
    g := map[];
    for i := 0 to |nodes|
      invariant g == AdjacencyOf(names, nodes[..i])
    {
      assert nodes[..i + 1][..i] == nodes[..i];
      g := AddNode(g, names, nodes[i]);
    }
    assert nodes[..|nodes|] == nodes;
  }

  /** Two lists of the same strings. */
  ghost predicate SameDeps(a: seq<Node>, b: seq<Node>) { forall n :: n in a <==> n in b }

  /** The same graph, up to order and repeats in its dependency lists. */
  ghost predicate SameEdges(g: Graph, h: Graph) {
    g.Keys == h.Keys && forall m :: m in g ==> SameDeps(g[m], h[m])
  }

  method SortDeps(g: Graph) returns (sorted: Graph)
    ensures SameEdges(sorted, g) && forall m :: m in sorted ==> StrictlySorted(sorted[m])
  {
    sorted := map[];
    var todo := g.Keys;
    while todo != {}
      invariant todo <= g.Keys && sorted.Keys == g.Keys - todo
      invariant forall m :: m in sorted ==> SameDeps(sorted[m], g[m]) && StrictlySorted(sorted[m])
      decreases |todo|
    {
      var m :| m in todo;
      var deps := SortDedup(g[m]);
      sorted := sorted[m := deps];
      todo := todo - {m};
    }
  }

  /** The name-level graph, each dependency list strictly sorted; an error without a resolve graph. */
  method ResolveAdjacency(metadata: Metadata) returns (r: Result<Graph, string>)
    ensures r.Failure? <==> metadata.resolve.None?
    ensures r.Success? ==> SameEdges(r.value, AdjacencyOf(NamesOf(metadata.packages), metadata.resolve.value))
    ensures r.Success? ==> IsMerged(r.value, metadata.packages, metadata.resolve.value)
    ensures r.Success? ==> forall m :: m in r.value ==> StrictlySorted(r.value[m])
  {
    if metadata.resolve.None? {
      return Failure("no resolve graph");
    }
    var names := NamePackages(metadata.packages);
    var merged := MergeNodes(names, metadata.resolve.value);
    var sorted := SortDeps(merged);
    MergedGraph(sorted, metadata.packages, metadata.resolve.value);
    r := Success(sorted);
  }

  lemma SameEdgesSamePaths(g: Graph, h: Graph, p: seq<Node>)
    requires SameEdges(g, h) && IsPath(g, p)
    ensures IsPath(h, p)
  {
    forall i | 0 <= i < |p| - 1 ensures Edge(h, p[i], p[i + 1]) {
      assert Edge(g, p[i], p[i + 1]) && SameDeps(g[p[i]], h[p[i]]);
    }
  }

  /** Sorting and deduplication do not matter to the gate. */
  lemma SameEdgesSameVerdict(g: Graph, h: Graph)
    requires SameEdges(g, h) && Admissible(g)
    ensures Admissible(h)
  {
    forall root, p | root in CLIENT_SIDE && IsPath(h, p) && p[0] == root ensures Last(p) !in DEEP_DEPS {
      SameEdgesSamePaths(h, g, p);
      assert DeepFree(g, root);
    }
    forall app, p | app in FRONTEND_APPS && IsPath(h, p) && p[0] == app && Last(p) == IPC ensures SDK in p {
      SameEdgesSamePaths(h, g, p);
      assert OnlyThroughSdk(g, app);
    }
  }

  /** The id-level edge the resolve graph states. */
  ghost predicate IdEdge(nodes: seq<ResolveNode>, a: Id, b: Id) {
    exists k :: 0 <= k < |nodes| && nodes[k].id == a && b in nodes[k].dependencies
  }

  lemma {:induction false} NamedDepsHas(names: map<Id, Node>, ids: seq<Id>, n: Node)
    ensures n in NamedDeps(names, ids) <==> exists b :: b in ids && b in names && names[b] == n
  {
    if ids != [] {
      NamedDepsHas(names, ids[1..], n);
      assert ids == [ids[0]] + ids[1..];
    }
  }

  /** The merged graph has exactly the edges between names that some pair of named ids has. */
  lemma {:induction false} MergedEdges(names: map<Id, Node>, nodes: seq<ResolveNode>, m: Node, n: Node)
    ensures Edge(AdjacencyOf(names, nodes), m, n) <==>
            exists a, b :: IdEdge(nodes, a, b) && a in names && b in names && names[a] == m && names[b] == n
    decreases |nodes|
  {
    if nodes == [] {
    } else {
      var init, last := nodes[..|nodes| - 1], nodes[|nodes| - 1];
      MergedEdges(names, init, m, n);
      NamedDepsHas(names, last.dependencies, n);
      forall a, b ensures IdEdge(nodes, a, b) <==> IdEdge(init, a, b) || (last.id == a && b in last.dependencies) {
        SplitIdEdge(nodes, a, b);
      }
    }
  }

  /** A name is present in the merged graph exactly when some resolved id has that name. */
  lemma {:induction false} MergedNodes(names: map<Id, Node>, nodes: seq<ResolveNode>, m: Node)
    ensures m in AdjacencyOf(names, nodes) <==>
            exists k :: 0 <= k < |nodes| && nodes[k].id in names && names[nodes[k].id] == m
    decreases |nodes|
  {
    if nodes == [] {
    } else {
      var init, last := nodes[..|nodes| - 1], nodes[|nodes| - 1];
      MergedNodes(names, init, m);
      assert forall k :: 0 <= k < |init| ==> nodes[k] == init[k];
      assert nodes[|nodes| - 1] == last;
    }
  }

  lemma SplitIdEdge(nodes: seq<ResolveNode>, a: Id, b: Id)
    requires nodes != []
    ensures var init, last := nodes[..|nodes| - 1], nodes[|nodes| - 1];
      IdEdge(nodes, a, b) <==> IdEdge(init, a, b) || (last.id == a && b in last.dependencies)
  {
    var init := nodes[..|nodes| - 1];
    if IdEdge(init, a, b) {
      var k :| 0 <= k < |init| && init[k].id == a && b in init[k].dependencies;
      assert nodes[k] == init[k];
    }
  }

  ghost predicate IsIdPath(names: map<Id, Node>, nodes: seq<ResolveNode>, q: seq<Id>) {
    && q != []
    && (forall i :: 0 <= i < |q| ==> q[i] in names)
    && (forall i :: 0 <= i < |q| - 1 ==> IdEdge(nodes, q[i], q[i + 1]))
  }

  /** Merging ids by name only adds paths. */
  lemma MergedPath(names: map<Id, Node>, nodes: seq<ResolveNode>, q: seq<Id>) returns (p: seq<Node>)
    requires IsIdPath(names, nodes, q)
    ensures |p| == |q| && forall i :: 0 <= i < |q| ==> p[i] == names[q[i]]
    ensures IsPath(AdjacencyOf(names, nodes), p)
  {
    p := seq(|q|, i requires 0 <= i < |q| => names[q[i]]);
    forall i | 0 <= i < |p| - 1 ensures Edge(AdjacencyOf(names, nodes), p[i], p[i + 1]) {
      MergedEdges(names, nodes, p[i], p[i + 1]);
      assert IdEdge(nodes, q[i], q[i + 1]);
    }
  }

  // ---------------------------------------------------------------------------------------
  // The gate on metadata

  /** `name` is the name of the last package with that id. */
  ghost predicate HasName(packages: seq<Package>, id: Id, name: Node) {
    exists k :: IsNamedAt(packages, k, id, name)
  }

  ghost predicate IsNamedAt(packages: seq<Package>, k: nat, id: Id, name: Node) {
    && k < |packages| && packages[k].id == id && packages[k].name == name
    && forall m :: k < m < |packages| ==> packages[m].id != id
  }

  /** An id is named exactly if some package has it, and its name is that of the last one that does. */
  lemma {:induction false} NamesAreTheLast(packages: seq<Package>, id: Id, name: Node)
    ensures id in NamesOf(packages) && NamesOf(packages)[id] == name <==> HasName(packages, id, name)
    decreases |packages|
  {
    if packages != [] {
      var init, last := packages[..|packages| - 1], packages[|packages| - 1];
      NamesAreTheLast(init, id, name);
      if last.id == id {
        assert last.name == name ==> IsNamedAt(packages, |packages| - 1, id, name);
      } else {
        SameNameWithout(packages, id, name);
      }
    }
  }

  lemma SameNameWithout(packages: seq<Package>, id: Id, name: Node)
    requires packages != [] && packages[|packages| - 1].id != id
    ensures HasName(packages, id, name) <==> HasName(packages[..|packages| - 1], id, name)
  {
    var init := packages[..|packages| - 1];
    if k :| IsNamedAt(packages, k, id, name) {
      assert IsNamedAt(init, k, id, name);
    }
    if k :| IsNamedAt(init, k, id, name) {
      assert IsNamedAt(packages, k, id, name);
    }
  }

  /** With distinct ids every package has its own name. */
  lemma DistinctIdsKeepNames(packages: seq<Package>, k: nat)
    requires k < |packages|
    requires forall i, j :: 0 <= i < j < |packages| ==> packages[i].id != packages[j].id
    ensures HasName(packages, packages[k].id, packages[k].name)
  {
    assert IsNamedAt(packages, k, packages[k].id, packages[k].name);
  }

  /** Some package called `m` depends on some package called `n`. */
  ghost predicate NameEdge(packages: seq<Package>, nodes: seq<ResolveNode>, m: Node, n: Node) {
    exists a, b :: IdEdge(nodes, a, b) && HasName(packages, a, m) && HasName(packages, b, n)
  }

  ghost predicate Resolved(packages: seq<Package>, nodes: seq<ResolveNode>, m: Node) {
    exists k :: 0 <= k < |nodes| && HasName(packages, nodes[k].id, m)
  }

  ghost predicate IsNamePath(packages: seq<Package>, nodes: seq<ResolveNode>, p: seq<Node>) {
    p != [] && forall i :: 0 <= i < |p| - 1 ==> NameEdge(packages, nodes, p[i], p[i + 1])
  }

  /** What the gate is for, stated on the packages and the resolve nodes alone. */
  ghost predicate AdmissiblePackages(packages: seq<Package>, nodes: seq<ResolveNode>) {
    && (forall root :: root in CLIENT_SIDE ==> Resolved(packages, nodes, root))
    && (forall p :: IsNamePath(packages, nodes, p) && p[0] in CLIENT_SIDE ==> Last(p) !in DEEP_DEPS)
    && (forall p :: IsNamePath(packages, nodes, p) && p[0] in FRONTEND_APPS && Last(p) == IPC ==> SDK in p)
  }

  lemma EdgesOfMetadata(packages: seq<Package>, nodes: seq<ResolveNode>, m: Node, n: Node)
    ensures Edge(AdjacencyOf(NamesOf(packages), nodes), m, n) <==> NameEdge(packages, nodes, m, n)
  {
    var names := NamesOf(packages);
    MergedEdges(names, nodes, m, n);
    forall a ensures a in names && names[a] == m <==> HasName(packages, a, m) { NamesAreTheLast(packages, a, m); }
    forall b ensures b in names && names[b] == n <==> HasName(packages, b, n) { NamesAreTheLast(packages, b, n); }
  }

  lemma NodesOfMetadata(packages: seq<Package>, nodes: seq<ResolveNode>, m: Node)
    ensures m in AdjacencyOf(NamesOf(packages), nodes) <==> Resolved(packages, nodes, m)
  {
    var names := NamesOf(packages);
    MergedNodes(names, nodes, m);
    forall a ensures a in names && names[a] == m <==> HasName(packages, a, m) { NamesAreTheLast(packages, a, m); }
  }

  /** The graph has the names of the resolved packages and the edges between them. */
  ghost predicate IsMerged(g: Graph, packages: seq<Package>, nodes: seq<ResolveNode>) {
    && (forall m :: m in g <==> Resolved(packages, nodes, m))
    && (forall m, n :: Edge(g, m, n) <==> NameEdge(packages, nodes, m, n))
  }

  lemma MergedGraph(g: Graph, packages: seq<Package>, nodes: seq<ResolveNode>)
    requires SameEdges(g, AdjacencyOf(NamesOf(packages), nodes))
    ensures IsMerged(g, packages, nodes)
  {
    var merged := AdjacencyOf(NamesOf(packages), nodes);
    forall m ensures m in g <==> Resolved(packages, nodes, m) {
      NodesOfMetadata(packages, nodes, m);
      assert m in g <==> m in merged;
    }
    forall m, n ensures Edge(g, m, n) <==> NameEdge(packages, nodes, m, n) {
      EdgesOfMetadata(packages, nodes, m, n);
      assert m in g ==> SameDeps(g[m], merged[m]);
    }
  }

  lemma PathsOfMetadata(packages: seq<Package>, nodes: seq<ResolveNode>, p: seq<Node>)
    ensures IsPath(AdjacencyOf(NamesOf(packages), nodes), p) <==> IsNamePath(packages, nodes, p)
  {
    forall i | 0 <= i < |p| - 1
      ensures Edge(AdjacencyOf(NamesOf(packages), nodes), p[i], p[i + 1]) <==> NameEdge(packages, nodes, p[i], p[i + 1])
    {
      EdgesOfMetadata(packages, nodes, p[i], p[i + 1]);
    }
  }

  lemma AdmissibleGraphIsPackages(packages: seq<Package>, nodes: seq<ResolveNode>)
    requires Admissible(AdjacencyOf(NamesOf(packages), nodes))
    ensures AdmissiblePackages(packages, nodes)
  {
    var g := AdjacencyOf(NamesOf(packages), nodes);
    forall root | root in CLIENT_SIDE ensures Resolved(packages, nodes, root) {
      NodesOfMetadata(packages, nodes, root);
    }
    forall p | IsNamePath(packages, nodes, p) ensures IsPath(g, p) { PathsOfMetadata(packages, nodes, p); }
    forall p | IsNamePath(packages, nodes, p) && p[0] in CLIENT_SIDE ensures Last(p) !in DEEP_DEPS {
      assert DeepFree(g, p[0]);
    }
    forall p | IsNamePath(packages, nodes, p) && p[0] in FRONTEND_APPS && Last(p) == IPC ensures SDK in p {
      assert OnlyThroughSdk(g, p[0]);
    }
  }

  lemma AdmissiblePackagesIsGraph(packages: seq<Package>, nodes: seq<ResolveNode>)
    requires AdmissiblePackages(packages, nodes)
    ensures Admissible(AdjacencyOf(NamesOf(packages), nodes))
  {
    var g := AdjacencyOf(NamesOf(packages), nodes);
    forall root | root in CLIENT_SIDE ensures root in g { NodesOfMetadata(packages, nodes, root); }
    forall p | IsPath(g, p) ensures IsNamePath(packages, nodes, p) { PathsOfMetadata(packages, nodes, p); }
  }

  /**
    The gate as a whole, on cargo's metadata: without a resolve graph it fails loud; otherwise it
    reports nothing exactly if every client-side package is resolved, no path of package names
    leads from one to a deep crate, and every path from an app to the IPC crate passes the SDK.
   */
  method CheckMetadata(metadata: Metadata) returns (r: Result<seq<Violation>, string>)
    ensures r.Failure? <==> metadata.resolve.None?
    ensures r.Success? ==> (r.value == [] <==> AdmissiblePackages(metadata.packages, metadata.resolve.value))
  {
    var graph := ResolveAdjacency(metadata);
    if graph.Failure? {
      return Failure(graph.error);
    }
    var violations := TransitiveForbiddenEdges(graph.value);
    VerdictOnPackages(metadata.packages, metadata.resolve.value, graph.value);
    r := Success(violations);
  }

  lemma VerdictOnPackages(packages: seq<Package>, nodes: seq<ResolveNode>, g: Graph)
    requires SameEdges(g, AdjacencyOf(NamesOf(packages), nodes))
    ensures Admissible(g) <==> AdmissiblePackages(packages, nodes)
  {
    var merged := AdjacencyOf(NamesOf(packages), nodes);
    if Admissible(g) {
      SameEdgesSameVerdict(g, merged);
      AdmissibleGraphIsPackages(packages, nodes);
    }
    if AdmissiblePackages(packages, nodes) {
      AdmissiblePackagesIsGraph(packages, nodes);
      SameEdgesSameVerdict(merged, g);
    }
  }

  /** `q` is a path of package ids, and `p` the names of its packages. */
  ghost predicate IsNamedIdPath(packages: seq<Package>, nodes: seq<ResolveNode>, q: seq<Id>, p: seq<Node>) {
    && q != [] && |p| == |q|
    && (forall i :: 0 <= i < |q| ==> HasName(packages, q[i], p[i]))
    && (forall i :: 0 <= i < |q| - 1 ==> IdEdge(nodes, q[i], q[i + 1]))
  }

  /** Acceptance carries over to package ids: no path of ids breaks either rule. */
  lemma AcceptanceCarriesOver(packages: seq<Package>, nodes: seq<ResolveNode>, q: seq<Id>, p: seq<Node>)
    requires AdmissiblePackages(packages, nodes) && IsNamedIdPath(packages, nodes, q, p)
    ensures p[0] in CLIENT_SIDE ==> Last(p) !in DEEP_DEPS
    ensures p[0] in FRONTEND_APPS && Last(p) == IPC ==> SDK in p
  {
    forall i | 0 <= i < |p| - 1 ensures NameEdge(packages, nodes, p[i], p[i + 1]) {
      assert IdEdge(nodes, q[i], q[i + 1]) && HasName(packages, q[i], p[i]) && HasName(packages, q[i + 1], p[i + 1]);
    }
    assert IsNamePath(packages, nodes, p);
  }
}

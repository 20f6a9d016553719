/**
  Reachability over the resolved dependency graph: a worklist that does not go past the conduit,
  and the route it reconstructs for every package it reached.
 */
module DepGraph {
  import opened Wrappers

  type Node = string

  type Graph = map<Node, seq<Node>>

  predicate Edge(g: Graph, a: Node, b: Node) { a in g && b in g[a] }

  ghost predicate IsPath(g: Graph, p: seq<Node>) {
    p != [] && forall i :: 0 <= i < |p| - 1 ==> Edge(g, p[i], p[i + 1])
  }

  /** A path that does not go on from the conduit. */
  ghost predicate IsOpenPath(g: Graph, conduit: Option<Node>, p: seq<Node>) {
    IsPath(g, p) && forall i :: 0 <= i < |p| - 1 ==> conduit != Some(p[i])
  }

  function Last(p: seq<Node>): Node
    requires p != []
  {
    p[|p| - 1]
  }

  ghost predicate Reaches(g: Graph, root: Node, conduit: Option<Node>, n: Node) {
    exists p :: IsOpenPath(g, conduit, p) && p[0] == root && Last(p) == n
  }

  ghost predicate NoRepeats(p: seq<Node>) {
    forall i, j :: 0 <= i < j < |p| ==> p[i] != p[j]
  }

  ghost predicate IsRoute(g: Graph, root: Node, conduit: Option<Node>, n: Node, p: seq<Node>) {
    IsOpenPath(g, conduit, p) && p[0] == root && Last(p) == n && NoRepeats(p)
  }

  // ---------------------------------------------------------------------------------------
  // The worklist

  /** The trail of `n` is a route, and is what the parent chain of `n` spells out. */
  ghost predicate SpelledAt(g: Graph, root: Node, conduit: Option<Node>,
                            parent: map<Node, Option<Node>>, trail: map<Node, seq<Node>>, n: Node) {
    && n in parent && n in trail
    && IsRoute(g, root, conduit, n, trail[n])
    && (forall m :: m in trail[n] ==> m in parent)
    && (parent[n].None? ==> trail[n] == [n])
    && (parent[n].Some? ==> parent[n].value in parent && parent[n].value in trail
                            && trail[n] == trail[parent[n].value] + [n])
  }

  ghost predicate Spells(g: Graph, root: Node, conduit: Option<Node>,
                         parent: map<Node, Option<Node>>, trail: map<Node, seq<Node>>) {
    forall n {:trigger SpelledAt(g, root, conduit, parent, trail, n)} ::
      n in parent ==> SpelledAt(g, root, conduit, parent, trail, n)
  }

  /** Every edge out of `n` that may be followed leads to a known node. */
  ghost predicate Explored(g: Graph, conduit: Option<Node>, parent: map<Node, Option<Node>>, n: Node) {
    conduit != Some(n) && n in g ==> forall i :: 0 <= i < |g[n]| ==> g[n][i] in parent
  }

  lemma NewRoute(g: Graph, root: Node, conduit: Option<Node>, p: seq<Node>, current: Node, dep: Node)
    requires IsRoute(g, root, conduit, current, p) && dep !in p
    requires Edge(g, current, dep) && conduit != Some(current)
    ensures IsRoute(g, root, conduit, dep, p + [dep])
  {
    var q := p + [dep];
    forall i | 0 <= i < |q| - 1 ensures Edge(g, q[i], q[i + 1]) && conduit != Some(q[i]) {
      if i == |q| - 2 {
        assert q[i] == current && q[i + 1] == dep;
      } else {
        assert q[i] == p[i] && q[i + 1] == p[i + 1];
      }
    }
  }

  lemma Grows(g: Graph, root: Node, conduit: Option<Node>, parent: map<Node, Option<Node>>,
              trail: map<Node, seq<Node>>, current: Node, dep: Node)
    requires Spells(g, root, conduit, parent, trail) && current in parent && dep !in parent
    requires Edge(g, current, dep) && conduit != Some(current)
    ensures current in trail
    ensures Spells(g, root, conduit, parent[dep := Some(current)], trail[dep := trail[current] + [dep]])
  {
    assert SpelledAt(g, root, conduit, parent, trail, current);
    NewRoute(g, root, conduit, trail[current], current, dep);
    var parent', trail' := parent[dep := Some(current)], trail[dep := trail[current] + [dep]];
    forall n | n in parent' ensures SpelledAt(g, root, conduit, parent', trail', n) {
      if n != dep {
        assert SpelledAt(g, root, conduit, parent, trail, n);
      }
    }
  }

  /** A set that contains the root and every explored edge contains every reachable node. */
  lemma {:induction false} ClosedIsComplete(g: Graph, conduit: Option<Node>, parent: map<Node, Option<Node>>,
                                            p: seq<Node>)
    requires IsOpenPath(g, conduit, p) && p[0] in parent
    requires forall n :: n in parent ==> Explored(g, conduit, parent, n)
    ensures Last(p) in parent
    decreases |p|
  {
    if |p| > 1 {
      var q := p[..|p| - 1];
      ClosedIsComplete(g, conduit, parent, q);
      assert Edge(g, p[|p| - 2], p[|p| - 1]) && conduit != Some(p[|p| - 2]);
      assert Explored(g, conduit, parent, Last(q));
    }
  }

  /** Everything the worklist can ever meet. */
  ghost function Universe(g: Graph, root: Node): set<Node> {
    {root} + set k, i | k in g && 0 <= i < |g[k]| :: g[k][i]
  }

  lemma SmallerRest(all: set<Node>, known: set<Node>, more: set<Node>)
    requires known < more <= all
    ensures |all - more| < |all - known|
  {
    var n :| n in more && n !in known;
    assert all - more <= all - known - {n};
    SubsetSize(all - more, all - known - {n});
  }

  lemma {:induction false} SubsetSize(a: set<Node>, b: set<Node>)
    requires a <= b
    ensures |a| <= |b|
  {
    if a != {} {
      var n :| n in a;
      SubsetSize(a - {n}, b - {n});
    }
  }

  /** The worklist's state: what is known, what is still to be explored, and the trails. */
  datatype Search = Search(parent: map<Node, Option<Node>>, frontier: seq<Node>)

  ghost predicate Sound(g: Graph, root: Node, conduit: Option<Node>, s: Search, trail: map<Node, seq<Node>>) {
    && Spells(g, root, conduit, s.parent, trail)
    && s.parent.Keys <= Universe(g, root)
    && (forall n :: n in s.frontier ==> n in s.parent)
  }

  /** `t` extends `s` by known nodes that are all still to be explored. */
  ghost predicate Extends(s: Search, t: Search) {
    && s.parent.Keys <= t.parent.Keys
    && (forall n :: n in s.frontier ==> n in t.frontier)
    && (forall n :: n in t.parent && n !in s.parent ==> n in t.frontier)
    && (t.parent.Keys == s.parent.Keys ==> t.frontier == s.frontier)
  }

  lemma PushKeepsSound(g: Graph, root: Node, conduit: Option<Node>, s: Search, trail: map<Node, seq<Node>>,
                       current: Node, dep: Node)
    requires Sound(g, root, conduit, s, trail) && current in s.parent && dep !in s.parent
    requires Edge(g, current, dep) && conduit != Some(current)
    ensures current in trail
    ensures Sound(g, root, conduit, Search(s.parent[dep := Some(current)], s.frontier + [dep]),
                  trail[dep := trail[current] + [dep]])
  {
    Grows(g, root, conduit, s.parent, trail, current, dep);
    assert dep in Universe(g, root);
  }

  lemma PushExtends(s: Search, t: Search, current: Node, dep: Node)
    requires Extends(s, t) && dep !in t.parent
    ensures Extends(s, Search(t.parent[dep := Some(current)], t.frontier + [dep]))
  {
    assert dep in t.parent[dep := Some(current)].Keys && dep !in s.parent.Keys;
  }

  method Explore(g: Graph, root: Node, conduit: Option<Node>, s: Search, current: Node,
                 ghost before: map<Node, seq<Node>>)
    returns (t: Search, ghost trail: map<Node, seq<Node>>)
    requires Sound(g, root, conduit, s, before) && current in s.parent
    requires conduit != Some(current) && current in g
    ensures Sound(g, root, conduit, t, trail) && Extends(s, t)
    ensures Explored(g, conduit, t.parent, current)
  {
    t, trail := s, before;
    for i := 0 to |g[current]|
      invariant Sound(g, root, conduit, t, trail) && Extends(s, t)
      invariant forall j :: 0 <= j < i ==> g[current][j] in t.parent
    {
      var dep := g[current][i];
      if dep !in t.parent {
        PushKeepsSound(g, root, conduit, t, trail, current, dep);
        PushExtends(s, t, current, dep);
        trail := trail[dep := trail[current] + [dep]];
        t := Search(t.parent[dep := Some(current)], t.frontier + [dep]);
      }
    }
  }

  /** What is known and not waiting has been explored. */
  ghost predicate Frontier(g: Graph, conduit: Option<Node>, s: Search) {
    forall n :: n in s.parent && n !in s.frontier ==> Explored(g, conduit, s.parent, n)
  }

  lemma ExploringKeepsFrontier(g: Graph, conduit: Option<Node>, s: Search, current: Node, t: Search)
    requires Frontier(g, conduit, s) && s.frontier != [] && s.frontier[|s.frontier| - 1] == current
    requires Extends(Search(s.parent, s.frontier[..|s.frontier| - 1]), t)
    requires Explored(g, conduit, t.parent, current)
    ensures Frontier(g, conduit, t)
  {
    assert s.frontier == s.frontier[..|s.frontier| - 1] + [current];
    forall n | n in t.parent && n !in t.frontier ensures Explored(g, conduit, t.parent, n) {
      if n != current {
        assert n in s.parent && n !in s.frontier;
      }
    }
  }

  lemma Exhausted(g: Graph, root: Node, conduit: Option<Node>, s: Search, trail: map<Node, seq<Node>>)
    requires Sound(g, root, conduit, s, trail) && Frontier(g, conduit, s) && s.frontier == [] && root in s.parent
    ensures forall n :: n in s.parent <==> Reaches(g, root, conduit, n)
  {
    forall n | Reaches(g, root, conduit, n) ensures n in s.parent {
      var p :| IsOpenPath(g, conduit, p) && p[0] == root && Last(p) == n;
      ClosedIsComplete(g, conduit, s.parent, p);
    }
    forall n | n in s.parent ensures Reaches(g, root, conduit, n) {
      assert SpelledAt(g, root, conduit, s.parent, trail, n);
    }
  }

  lemma RootIsSound(g: Graph, root: Node, conduit: Option<Node>)
    ensures Sound(g, root, conduit, Search(map[root := None], [root]), map[root := [root]])
    ensures Frontier(g, conduit, Search(map[root := None], [root]))
  {
    assert IsRoute(g, root, conduit, root, [root]);
    assert SpelledAt(g, root, conduit, map[root := None], map[root := [root]], root);
  }

  method Discover(g: Graph, root: Node, conduit: Option<Node>)
    returns (parent: map<Node, Option<Node>>, ghost trail: map<Node, seq<Node>>)
    ensures Spells(g, root, conduit, parent, trail)
    ensures forall n :: n in parent <==> Reaches(g, root, conduit, n)
  {
    var s := Search(map[root := None], [root]);
    trail := map[root := [root]];
    RootIsSound(g, root, conduit);
    while s.frontier != []
      invariant root in s.parent && Sound(g, root, conduit, s, trail) && Frontier(g, conduit, s)
      decreases |Universe(g, root) - s.parent.Keys|, |s.frontier|
    {
      var current := s.frontier[|s.frontier| - 1];
      var popped := Search(s.parent, s.frontier[..|s.frontier| - 1]);
      var t := popped;
      if conduit != Some(current) && current in g {
        t, trail := Explore(g, root, conduit, popped, current, trail);
      }
      ExploringKeepsFrontier(g, conduit, s, current, t);
      if t.parent.Keys != s.parent.Keys {
        SmallerRest(Universe(g, root), s.parent.Keys, t.parent.Keys);
      }
      s := t;
    }
    Exhausted(g, root, conduit, s, trail);
    parent := s.parent;
  }

  // ---------------------------------------------------------------------------------------
  // Routes out of parent chains

  function Reversed(p: seq<Node>): seq<Node> {
    if p == [] then [] else Reversed(p[1..]) + [p[0]]
  }

  lemma {:induction false} ReversedSnoc(p: seq<Node>, n: Node)
    ensures Reversed(p + [n]) == [n] + Reversed(p)
  {
    if p == [] {
      assert p + [n] == [n];
    } else {
      assert (p + [n])[1..] == p[1..] + [n];
      ReversedSnoc(p[1..], n);
    }
  }

  /** What the parent chain above `n`, itself included, spells out. */
  function Above(trail: map<Node, seq<Node>>, n: Option<Node>): seq<Node> {
    if n.Some? && n.value in trail then trail[n.value] else []
  }

  lemma ChainStep(g: Graph, root: Node, conduit: Option<Node>, parent: map<Node, Option<Node>>,
                  trail: map<Node, seq<Node>>, n: Node)
    requires Spells(g, root, conduit, parent, trail) && n in parent
    ensures n in trail && trail[n] == Above(trail, parent[n]) + [n]
    ensures parent[n].Some? ==> parent[n].value in parent
  {
    assert SpelledAt(g, root, conduit, parent, trail, n);
  }

  lemma WalkStep(trail: map<Node, seq<Node>>, ancestor: Option<Node>, step: Node, path: seq<Node>)
    requires step in trail && trail[step] == Above(trail, ancestor) + [step]
    ensures Above(trail, ancestor) + Reversed(path + [step]) == trail[step] + Reversed(path)
  {
    ReversedSnoc(path, step);
  }

  /** The walk up the parent chain from `node`, turned around. */
  method Walk(g: Graph, root: Node, conduit: Option<Node>, parent: map<Node, Option<Node>>, node: Node,
              ghost trail: map<Node, seq<Node>>) returns (path: seq<Node>)
    requires Spells(g, root, conduit, parent, trail) && node in parent
    ensures node in trail && path == trail[node]
  {
    path := [node];
    var ancestor := parent[node];
    ChainStep(g, root, conduit, parent, trail, node);
    assert Reversed([node]) == [node];
    while ancestor.Some?
      invariant ancestor.Some? ==> ancestor.value in parent
      invariant trail[node] == Above(trail, ancestor) + Reversed(path)
      decreases ancestor.Some?, |Above(trail, ancestor)|
    {
      var step := ancestor.value;
      ChainStep(g, root, conduit, parent, trail, step);
      WalkStep(trail, parent[step], step, path);
      path := path + [step];
      ancestor := parent[step];
    }
    path := Reversed(path);
  }

  /**
    The closure is exact: its keys are the nodes reachable by a path with no conduit before its
    last node, and each comes with such a path, without repeats.
   */
  method ClosureRoutes(g: Graph, root: Node, conduit: Option<Node>) returns (routes: map<Node, seq<Node>>)
    ensures forall n :: n in routes <==> Reaches(g, root, conduit, n)
    ensures forall n :: n in routes ==> IsRoute(g, root, conduit, n, routes[n])
  {
    var parent;
    ghost var trail;
    parent, trail := Discover(g, root, conduit);
    routes := map[];
    var todo := parent.Keys;
    while todo != {}
      invariant todo <= parent.Keys && routes.Keys == parent.Keys - todo
      invariant forall n :: n in routes ==> IsRoute(g, root, conduit, n, routes[n])
      decreases |todo|
    {
      var node :| node in todo;
      var path := Walk(g, root, conduit, parent, node, trail);
      assert SpelledAt(g, root, conduit, parent, trail, node);
      routes := routes[node := path];
      todo := todo - {node};
    }
  }
}

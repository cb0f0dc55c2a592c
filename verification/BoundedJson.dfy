/** The bounded walk over a JavaScript object graph that decides what counts as plain JSON data. */
module BoundedJson {
  import opened ControlEvents

  const MAX_DEPTH: nat := 64
  const MAX_NODES: nat := 100_000

  type Ref = nat

  /** `Scalar` is null, a string, a boolean or a finite number; `Alien` anything else that is no object. */
  datatype Value = Scalar | NonFinite | Alien | Object(ref: Ref)

  /** A property as its descriptor shows it: plain enumerable data, or not. */
  datatype Property = Data(value: Value) | Hidden

  /**
   * An object: an array or a record, with the expected prototype or not. An
   * array may carry keys that are no valid index; a record's properties come in
   * key order, a symbol key being `Hidden`.
   */
  datatype Node = Node(isArray: bool, plain: bool, strayKeys: bool, properties: seq<Property>)

  type Graph = map<Ref, Node>

  // ---- The reference: trees a value unfolds to ----

  datatype Tree = Leaf | Branch(parts: seq<Tree>)

  predicate WellMade(n: Node) {
    n.plain && (n.isArray ==> !n.strayKeys)
  }

  /** `t` is the plain tree `v` unfolds to; sharing in the graph is copied, a cycle has no such tree. */
  predicate Unfolds(g: Graph, v: Value, t: Tree)
    decreases t
  {
    match t
    case Leaf => v == Scalar
    case Branch(parts) =>
      && v.Object? && v.ref in g && WellMade(g[v.ref])
      && |parts| == |g[v.ref].properties|
      && forall i :: 0 <= i < |parts| ==>
           g[v.ref].properties[i].Data? && Unfolds(g, g[v.ref].properties[i].value, parts[i])
  }

  function Nodes(t: Tree): nat {
    match t
    case Leaf => 1
    case Branch(parts) => 1 + NodesOf(parts)
  }

  function NodesOf(ts: seq<Tree>): nat {
    if ts == [] then 0 else NodesOf(ts[..|ts| - 1]) + Nodes(ts[|ts| - 1])
  }

  /** No branch of the tree is longer than `d` edges. */
  predicate Shallow(t: Tree, d: nat) {
    match t
    case Leaf => true
    case Branch(parts) => forall i :: 0 <= i < |parts| ==> d > 0 && Shallow(parts[i], d - 1)
  }

  // ---- The same, computed ----

  /** The number of nodes `v` unfolds to within depth `d`, if it does. */
  function Size(g: Graph, v: Value, d: nat): Option<nat>
    decreases d, 1, 0
  {
    match v
    case Scalar => Some(1)
    case NonFinite => None
    case Alien => None
    case Object(r) =>
      if r !in g || !WellMade(g[r]) then None
      else match SizeOf(g, g[r].properties, d)
           case None => None
           case Some(n) => Some(1 + n)
  }

  function SizeOf(g: Graph, ps: seq<Property>, d: nat): Option<nat>
    decreases d, 0, |ps|
  {
    if ps == [] then Some(0)
    else
      var last := ps[|ps| - 1];
      match SizeOf(g, ps[..|ps| - 1], d)
      case None => None
      case Some(n) =>
        if last.Hidden? || d == 0 then None
        else match Size(g, last.value, d - 1)
             case None => None
             case Some(m) => Some(n + m)
  }

  ghost predicate Fits(g: Graph, v: Value, d: nat, n: nat) {
    exists t :: Unfolds(g, v, t) && Shallow(t, d) && Nodes(t) == n
  }

  lemma NodesSnoc(ts: seq<Tree>, t: Tree)
    ensures NodesOf(ts + [t]) == NodesOf(ts) + Nodes(t)
  {
    assert (ts + [t])[..|ts|] == ts;
  }

  lemma {:induction false} SizeFits(g: Graph, v: Value, d: nat) returns (t: Tree)
    requires Size(g, v, d).Some?
    ensures Unfolds(g, v, t) && Shallow(t, d) && Nodes(t) == Size(g, v, d).value
    decreases d, 1, 0
  {
    match v
    case Scalar => t := Leaf;
    case Object(r) =>
      var parts := SizesFit(g, g[r].properties, d);
      t := Branch(parts);
  }

  lemma {:induction false} SizesFit(g: Graph, ps: seq<Property>, d: nat) returns (ts: seq<Tree>)
    requires SizeOf(g, ps, d).Some?
    ensures |ts| == |ps| && NodesOf(ts) == SizeOf(g, ps, d).value
    ensures forall i :: 0 <= i < |ps| ==>
              ps[i].Data? && Unfolds(g, ps[i].value, ts[i]) && d > 0 && Shallow(ts[i], d - 1)
    decreases d, 0, |ps|
  {
    if ps == [] {
      ts := [];
    } else {
      var n := |ps| - 1;
      var front := SizesFit(g, ps[..n], d);
      var last := SizeFits(g, ps[n].value, d - 1);
      NodesSnoc(front, last);
      ts := front + [last];
    }
  }

  lemma {:induction false} FitsSize(g: Graph, v: Value, d: nat, t: Tree)
    requires Unfolds(g, v, t) && Shallow(t, d)
    ensures Size(g, v, d) == Some(Nodes(t))
    decreases t, 1, 0
  {
    match t
    case Leaf =>
    case Branch(parts) =>
      var ps := g[v.ref].properties;
      FitSizes(g, ps, d, parts, |parts|);
      assert ps[..|parts|] == ps && parts[..|parts|] == parts;
  }

  lemma {:induction false} FitSizes(g: Graph, ps: seq<Property>, d: nat, ts: seq<Tree>, k: nat)
    requires |ts| == |ps| && k <= |ts|
    requires forall i :: 0 <= i < |ps| ==>
               ps[i].Data? && Unfolds(g, ps[i].value, ts[i]) && d > 0 && Shallow(ts[i], d - 1)
    ensures SizeOf(g, ps[..k], d) == Some(NodesOf(ts[..k]))
    decreases ts, 0, k
  {
    if k > 0 {
      FitSizes(g, ps, d, ts, k - 1);
      FitsSize(g, ps[k - 1].value, d - 1, ts[k - 1]);
      assert ps[..k][..k - 1] == ps[..k - 1] && ts[..k][..k - 1] == ts[..k - 1];
    }
  }

  /** The computed size is that of the one tree the value unfolds to. */
  lemma SizeIsFits(g: Graph, v: Value, d: nat, n: nat)
    ensures Size(g, v, d) == Some(n) <==> Fits(g, v, d, n)
  {
    hide Unfolds, Shallow;
    if Size(g, v, d) == Some(n) {
      var t := SizeFits(g, v, d);
    }
    if Fits(g, v, d, n) {
      var t :| Unfolds(g, v, t) && Shallow(t, d) && Nodes(t) == n;
      FitsSize(g, v, d, t);
    }
  }

  // ---- Depth ----

  lemma {:induction false} SizeMonotone(g: Graph, v: Value, d: nat, e: nat)
    requires Size(g, v, d).Some? && d <= e
    ensures Size(g, v, e) == Size(g, v, d)
    decreases d, 1, 0
  {
    if v.Object? {
      SizesMonotone(g, g[v.ref].properties, d, e);
    }
  }

  lemma {:induction false} SizesMonotone(g: Graph, ps: seq<Property>, d: nat, e: nat)
    requires SizeOf(g, ps, d).Some? && d <= e
    ensures SizeOf(g, ps, e) == SizeOf(g, ps, d)
    decreases d, 0, |ps|
  {
    if ps != [] {
      SizesMonotone(g, ps[..|ps| - 1], d, e);
      SizeMonotone(g, ps[|ps| - 1].value, d - 1, e - 1);
    }
  }

  /** A part of a fitting value fits one level less deep. */
  lemma {:induction false} PartFits(g: Graph, ps: seq<Property>, d: nat, i: nat)
    requires SizeOf(g, ps, d).Some? && i < |ps|
    ensures ps[i].Data? && d > 0 && Size(g, ps[i].value, d - 1).Some?
  {
    if i < |ps| - 1 {
      PartFits(g, ps[..|ps| - 1], d, i);
    }
  }

  /** Whatever fits an object on the path leaves strictly less room for `v` below it. */
  ghost predicate Below(g: Graph, seen: set<Ref>, v: Value) {
    forall r, d: nat :: r in seen && Size(g, Object(r), d).Some? ==> d > 0 && Size(g, v, d - 1).Some?
  }

  /** An object met again below itself unfolds to no tree, however deep one looks. */
  lemma {:induction false} CycleNeverFits(g: Graph, seen: set<Ref>, r: Ref, d: nat)
    requires Below(g, seen, Object(r)) && r in seen
    ensures Size(g, Object(r), d).None?
  {
    if Size(g, Object(r), d).Some? {
      CycleNeverFits(g, seen, r, d - 1);
    }
  }

  lemma BelowPart(g: Graph, seen: set<Ref>, r: Ref, i: nat)
    requires Below(g, seen, Object(r)) && r in g && WellMade(g[r]) && i < |g[r].properties|
    requires g[r].properties[i].Data?
    ensures Below(g, seen + {r}, g[r].properties[i].value)
  {
    var v := g[r].properties[i].value;
    forall q, d: nat | q in seen + {r} && Size(g, Object(q), d).Some? ensures d > 0 && Size(g, v, d - 1).Some? {
      if q != r {
        assert Size(g, Object(r), d - 1).Some?;
        PartFits(g, g[r].properties, d - 1, i);
        SizeMonotone(g, v, d - 2, d - 1);
      } else {
        PartFits(g, g[r].properties, d, i);
      }
    }
  }

  /** Without one of its parts no list fits. */
  lemma {:induction false} PrefixMustFit(g: Graph, ps: seq<Property>, k: nat, d: nat)
    requires k <= |ps| && SizeOf(g, ps, d).Some?
    ensures SizeOf(g, ps[..k], d).Some? && SizeOf(g, ps[..k], d).value <= SizeOf(g, ps, d).value
  {
    if k < |ps| {
      PrefixMustFit(g, ps[..|ps| - 1], k, d);
      assert ps[..|ps| - 1][..k] == ps[..k];
    } else {
      assert ps[..k] == ps;
    }
  }

  // ---- The walk ----

  /** Room for `v` at a depth: it fits below the depth limit and within the nodes left. */
  predicate Room(g: Graph, v: Value, depth: nat, nodes: nat) {
    && depth <= MAX_DEPTH && Size(g, v, MAX_DEPTH - depth).Some?
    && nodes + Size(g, v, MAX_DEPTH - depth).value <= MAX_NODES
  }

  class Walk {
    const graph: Graph
    var nodes: nat
    var seen: set<Ref>

    constructor (graph: Graph)
      ensures this.graph == graph && nodes == 0 && seen == {}
    {
      this.graph := graph;
      nodes, seen := 0, {};
    }

    /** Visits one item; `false` means the walk was abandoned. */
    method Visit(item: Value, depth: nat) returns (ok: bool)
      requires depth <= MAX_DEPTH + 1 && nodes <= MAX_NODES && Below(graph, seen, item)
      modifies this
      ensures ok <==> Room(graph, item, depth, old(nodes))
      ensures ok ==> seen == old(seen) && nodes == old(nodes) + Size(graph, item, MAX_DEPTH - depth).value
      decreases MAX_DEPTH + 1 - depth, 1, 0
    {
      SizePositive(graph, item, if depth <= MAX_DEPTH then MAX_DEPTH - depth else 0);
      nodes := nodes + 1;
      if nodes > MAX_NODES || depth > MAX_DEPTH { return false; }
      match item {
        case Scalar => return true;
        case NonFinite => return false;
        case Alien => return false;
        case Object(r) =>
          if r in seen {
            CycleNeverFits(graph, seen, r, MAX_DEPTH - depth);
            return false;
          }
          if r !in graph { return false; }
          ghost var path := seen;
          seen := seen + {r};
          var n := graph[r];
          if !n.plain { return false; }
          if n.isArray && n.strayKeys { return false; }
          ok := VisitParts(r, depth, path);
          if !ok { return; }
          seen := seen - {r};
      }
    }

    /** The properties of an object in order, each checked before it is visited. */
    method VisitParts(r: Ref, depth: nat, ghost path: set<Ref>) returns (ok: bool)
      requires depth <= MAX_DEPTH && 0 < nodes <= MAX_NODES && r in graph && WellMade(graph[r])
      requires r !in path && seen == path + {r} && Below(graph, path, Object(r))
      modifies this
      ensures ok <==> Room(graph, Object(r), depth, old(nodes) - 1)
      ensures ok ==> seen == path + {r} && nodes == old(nodes) - 1 + Size(graph, Object(r), MAX_DEPTH - depth).value
      decreases MAX_DEPTH + 1 - depth, 0, 0
    {
      var ps := graph[r].properties;
      ghost var d: nat := MAX_DEPTH - depth;
      for i := 0 to |ps|
        invariant seen == path + {r} && nodes <= MAX_NODES
        invariant SizeOf(graph, ps[..i], d) == Some(nodes - old(nodes))
      {
        PartsRoom(graph, ps, i, d, old(nodes));
        if ps[i].Hidden? { return false; }
        BelowPart(graph, path, r, i);
        var fits := Visit(ps[i].value, depth + 1);
        if !fits { return false; }
      }
      assert ps[..|ps|] == ps;
      ok := true;
    }
  }

  lemma SizePositive(g: Graph, v: Value, d: nat)
    ensures Size(g, v, d).Some? ==> Size(g, v, d).value > 0
  {
  }

  /** What the part at `i` must do for the whole list to fit. */
  lemma PartsRoom(g: Graph, ps: seq<Property>, i: nat, d: nat, nodes: nat)
    requires i < |ps| && d <= MAX_DEPTH && SizeOf(g, ps[..i], d).Some?
    ensures SizeOf(g, ps[..i + 1], d) ==
              if ps[i].Hidden? || d == 0 || Size(g, ps[i].value, d - 1).None? then None
              else Some(SizeOf(g, ps[..i], d).value + Size(g, ps[i].value, d - 1).value)
    ensures SizeOf(g, ps, d).Some? ==>
              SizeOf(g, ps[..i + 1], d).Some? && SizeOf(g, ps[..i + 1], d).value <= SizeOf(g, ps, d).value
  {
    assert ps[..i + 1][..i] == ps[..i];
    if SizeOf(g, ps, d).Some? { PrefixMustFit(g, ps, i + 1, d); }
  }

  /**
   * The walk accepts exactly the values that unfold to a finite plain tree of
   * depth at most 64 with at most 100000 nodes, and it ends on every graph,
   * cyclic ones included.
   */
  method Accepts(g: Graph, v: Value) returns (ok: bool)
    ensures ok <==> exists t :: Unfolds(g, v, t) && Shallow(t, MAX_DEPTH) && Nodes(t) <= MAX_NODES
  {
    var walk := new Walk(g);
    ok := walk.Visit(v, 0);
    RoomIsTree(g, v);
  }

  lemma RoomIsTree(g: Graph, v: Value)
    ensures Room(g, v, 0, 0) <==> exists t :: Unfolds(g, v, t) && Shallow(t, MAX_DEPTH) && Nodes(t) <= MAX_NODES
  {
    hide Unfolds, Shallow, Nodes;
    if Room(g, v, 0, 0) {
      var t := SizeFits(g, v, MAX_DEPTH);
    }
    if t :| Unfolds(g, v, t) && Shallow(t, MAX_DEPTH) && Nodes(t) <= MAX_NODES {
      FitsSize(g, v, MAX_DEPTH, t);
    }
  }

  // ---- Cycles and sharing ----

  /** Each object of the path is a property of the one before it. */
  predicate Path(g: Graph, path: seq<Ref>) {
    forall i :: 0 <= i < |path| - 1 ==> path[i] in g && Data(Object(path[i + 1])) in g[path[i]].properties
  }

  /** Following a path down a tree costs one level an edge. */
  lemma {:induction false} PathSinks(g: Graph, path: seq<Ref>, d: nat)
    requires path != [] && Path(g, path) && Size(g, Object(path[0]), d).Some?
    ensures |path| - 1 <= d && Size(g, Object(path[|path| - 1]), d - (|path| - 1)).Some?
  {
    if |path| > 1 {
      var ps := g[path[0]].properties;
      var i :| 0 <= i < |ps| && ps[i] == Data(Object(path[1]));
      PartFits(g, ps, d, i);
      forall j | 0 <= j < |path[1..]| - 1
        ensures path[1..][j] in g && Data(Object(path[1..][j + 1])) in g[path[1..][j]].properties
      {
        assert path[1..][j] == path[j + 1] && path[1..][j + 1] == path[j + 2];
      }
      PathSinks(g, path[1..], d - 1);
    }
  }

  /** An object on a cycle unfolds to no tree at all, of whatever depth. */
  lemma {:induction false} CyclesNeverPass(g: Graph, path: seq<Ref>, t: Tree)
    requires |path| > 1 && Path(g, path) && path[|path| - 1] == path[0]
    ensures !Unfolds(g, Object(path[0]), t)
  {
    if Unfolds(g, Object(path[0]), t) {
      var d := Depth(t);
      DepthShallow(t);
      FitsSize(g, Object(path[0]), d, t);
      NoFitOnCycle(g, path, d);
    }
  }

  lemma {:induction false} NoFitOnCycle(g: Graph, path: seq<Ref>, d: nat)
    requires |path| > 1 && Path(g, path) && path[|path| - 1] == path[0]
    ensures Size(g, Object(path[0]), d).None?
  {
    if Size(g, Object(path[0]), d).Some? {
      PathSinks(g, path, d);
      NoFitOnCycle(g, path, d - (|path| - 1));
    }
  }

  function Depth(t: Tree): nat {
    match t
    case Leaf => 0
    case Branch(parts) => DepthOf(parts)
  }

  function DepthOf(ts: seq<Tree>): nat {
    if ts == [] then 0
    else
      var a, b := DepthOf(ts[..|ts| - 1]), Depth(ts[|ts| - 1]) + 1;
      if a < b then b else a
  }

  lemma {:induction false} ShallowMore(t: Tree, d: nat, e: nat)
    requires Shallow(t, d) && d <= e
    ensures Shallow(t, e)
    decreases t
  {
    match t
    case Leaf =>
    case Branch(parts) =>
      forall i | 0 <= i < |parts| ensures e > 0 && Shallow(parts[i], e - 1) {
        ShallowMore(parts[i], d - 1, e - 1);
      }
  }

  lemma {:induction false} DepthShallow(t: Tree)
    ensures Shallow(t, Depth(t))
    decreases t, 1, 0
  {
    match t
    case Leaf =>
    case Branch(parts) => DepthsShallow(parts, |parts|);
  }

  lemma {:induction false} DepthsShallow(ts: seq<Tree>, k: nat)
    requires k <= |ts|
    ensures forall i :: 0 <= i < k ==> DepthOf(ts[..k]) > 0 && Shallow(ts[i], DepthOf(ts[..k]) - 1)
    ensures k == |ts| ==> ts[..k] == ts
    decreases ts, 0, k
  {
    if k > 0 {
      DepthsShallow(ts, k - 1);
      assert ts[..k][..k - 1] == ts[..k - 1];
      DepthShallow(ts[k - 1]);
      forall i | 0 <= i < k ensures Shallow(ts[i], DepthOf(ts[..k]) - 1) {
        ShallowMore(ts[i], if i == k - 1 then Depth(ts[i]) else DepthOf(ts[..k - 1]) - 1, DepthOf(ts[..k]) - 1);
      }
    }
  }
}

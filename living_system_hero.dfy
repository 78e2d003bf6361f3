/**
 * The "living system" hero widget: a small graph of nodes and edges with particles
 * flowing along the edges. The widget keeps its nodes, edges and particles in lists
 * that its event handlers and its animation loop change in place; a narrative stage
 * (initial, complexity, optimized) records which scripted beat was played last.
 *
 * Records are values here: writing a field of a node, edge or particle in place is
 * an update of one element of the list that holds it. Every draw of `Math.random()`,
 * the clock and the pointer position are parameters.
 */
module LivingSystemHero {
  import opened Optional

  datatype NodeKind = Core | Added | Critical
  datatype Stage = Initial | Complexity | Optimized

  datatype Node = Node(id: string, x: real, y: real, kind: NodeKind, radius: real, vx: real, vy: real)
  /** `isBottleneck` is optional in the widget; an absent flag reads as false. */
  datatype Edge = Edge(id: string, from: string, to: string, throughput: real, isBottleneck: bool)
  datatype Particle = Particle(id: string, edgeId: string, progress: real, speed: real)

  const DefaultWidth: nat := 800
  const DefaultHeight: nat := 600
  const InitialIds: seq<string> := ["1", "2", "3", "4", "5"]
  const NodeHitDistSq: real := 400.0    // 20 px, squared
  const EdgeHitDistSq: real := 100.0    // 10 px, squared
  const SpawnChance: real := 0.05
  const BottleneckRoll: real := 0.7     // a roll above this makes an edge the new bottleneck
  const BottleneckSlowdown: real := 0.2
  const OrphanProgress: real := 1.1
  const ToolRadius: real := 5.0
  const ToolThroughput: real := 0.4
  const AutomatedThroughput: real := 0.9
  const BottleneckThroughput: real := 0.1
  const RedesignThroughput: real := 0.6
  const PruneThreshold: nat := 5        // pruning happens only above this many edges
  const PrunePrefix: nat := 4           // edges below this index always survive pruning

  // ---------------------------------------------------------------------------
  // JavaScript idioms the widget relies on
  // ---------------------------------------------------------------------------

  /** `v || d` on a canvas dimension: zero falls back to the default. */
  function OrDefault(v: nat, d: nat): nat { if v == 0 then d else v }

  /** `v || d` on a pointer coordinate: zero falls back to the default. */
  function OrReal(v: real, d: real): real { if v == 0.0 then d else v }

  lemma ProductBelow(r: real, n: nat)
    requires 0.0 <= r < 1.0
    ensures 0.0 <= r * n as real
    ensures n > 0 ==> r * n as real < n as real
  {
  }

  /** `Math.floor(r * len)` for a draw `r` of `Math.random()`: an index into a list
      of length `len`, or 0 (an undefined element) when the list is empty. */
  function PickIndex(r: real, len: nat): (i: nat)
    requires 0.0 <= r < 1.0
    ensures len == 0 ==> i == 0
    ensures len > 0 ==> i < len
  {
    ProductBelow(r, len);
    (r * len as real).Floor
  }

  /** `Array.prototype.find`: the index of the first element satisfying `p`. */
  function FirstWhere<T>(s: seq<T>, p: T -> bool): (r: Option<nat>)
    ensures r.Some? ==> r.value < |s| && p(s[r.value])
    ensures forall j :: 0 <= j < |s| && (r.None? || j < r.value) ==> !p(s[j])
  {
    if |s| == 0 then None
    else if p(s[0]) then Some(0)
    else match FirstWhere(s[1..], p)
      case Some(j) => Some(j + 1)
      case None => None
  }

  // ---------------------------------------------------------------------------
  // Lookups and the graph invariant
  // ---------------------------------------------------------------------------

  function NodeIds(ns: seq<Node>): seq<string>
  {
    seq(|ns|, i requires 0 <= i < |ns| => ns[i].id)
  }

  /** The first node with the given id, as `nodes.find(n => n.id === id)`. */
  function FindNode(ns: seq<Node>, id: string): (r: Option<nat>)
    ensures r.Some? ==> r.value < |ns| && ns[r.value].id == id
    ensures r.Some? ==> forall j :: 0 <= j < r.value ==> ns[j].id != id
    ensures r.Some? <==> id in NodeIds(ns)
  {
    var r := FirstWhere(ns, (n: Node) => n.id == id);
    assert r.None? ==> forall j :: 0 <= j < |ns| ==> NodeIds(ns)[j] != id;
    assert r.Some? ==> NodeIds(ns)[r.value] == id;
    r
  }

  /** The first edge with the given id, as `edges.find(e => e.id === id)`. */
  function FindEdge(es: seq<Edge>, id: string): (r: Option<nat>)
    ensures r.Some? ==> r.value < |es| && es[r.value].id == id
    ensures forall j :: 0 <= j < |es| && (r.None? || j < r.value) ==> es[j].id != id
  {
    FirstWhere(es, (e: Edge) => e.id == id)
  }

  /** Every edge endpoint names a node of the graph. */
  predicate EndpointsExist(ns: seq<Node>, es: seq<Edge>)
  {
    forall i :: 0 <= i < |es| ==> es[i].from in NodeIds(ns) && es[i].to in NodeIds(ns)
  }

  predicate ThroughputsInRange(es: seq<Edge>)
  {
    forall i :: 0 <= i < |es| ==> 0.0 <= es[i].throughput <= 1.0
  }

  /** Between frames every particle is on its way: progress in [0, 1), speed positive. */
  predicate InFlight(ps: seq<Particle>)
  {
    forall i :: 0 <= i < |ps| ==> 0.0 <= ps[i].progress < 1.0 && ps[i].speed > 0.0
  }

  /** The draw loop's guard `if (n1 && n2)` always passes on a graph that keeps the
      invariant: both endpoints of every edge are found. */
  lemma EndpointsResolve(ns: seq<Node>, es: seq<Edge>, k: nat)
    requires EndpointsExist(ns, es) && k < |es|
    ensures FindNode(ns, es[k].from).Some? && FindNode(ns, es[k].to).Some?
  {
  }

  lemma NodeIdsAppend(ns: seq<Node>, n: Node)
    ensures NodeIds(ns + [n]) == NodeIds(ns) + [n.id]
  {
  }

  // ---------------------------------------------------------------------------
  // Initial graph
  // ---------------------------------------------------------------------------

  /** Five core nodes at rest, laid out around the canvas centre. */
  function InitialNodes(width: nat, height: nat): (ns: seq<Node>)
    ensures |ns| == 5 && NodeIds(ns) == InitialIds
    ensures forall i :: 0 <= i < |ns| ==> ns[i].kind == Core && ns[i].vx == 0.0 && ns[i].vy == 0.0
  {
    var cx := OrDefault(width, DefaultWidth) as real / 2.0;
    var cy := OrDefault(height, DefaultHeight) as real / 2.0;
    [ Node("1", cx - 100.0, cy - 50.0, Core, 6.0, 0.0, 0.0),
      Node("2", cx + 100.0, cy - 50.0, Core, 6.0, 0.0, 0.0),
      Node("3", cx, cy + 80.0, Core, 6.0, 0.0, 0.0),
      Node("4", cx - 150.0, cy + 50.0, Core, 4.0, 0.0, 0.0),
      Node("5", cx + 150.0, cy + 50.0, Core, 4.0, 0.0, 0.0) ]
  }

  /** Five edges between the initial nodes, none of them a bottleneck. */
  function InitialEdges(): (es: seq<Edge>)
    ensures |es| == 5
    ensures forall i :: 0 <= i < |es| ==> es[i].from in InitialIds && es[i].to in InitialIds
    ensures forall i :: 0 <= i < |es| ==> !es[i].isBottleneck && 0.0 <= es[i].throughput <= 1.0
  {
    [ Edge("e1", "1", "2", 0.5, false),
      Edge("e2", "2", "3", 0.5, false),
      Edge("e3", "3", "1", 0.5, false),
      Edge("e4", "4", "1", 0.3, false),
      Edge("e5", "2", "5", 0.3, false) ]
  }

  // ---------------------------------------------------------------------------
  // Add tool
  // ---------------------------------------------------------------------------

  /** `nodes[Math.floor(r * nodes.length)]`: defined exactly when there are nodes. */
  function Target(ns: seq<Node>, r: real): (t: Option<Node>)
    requires 0.0 <= r < 1.0
    ensures t.Some? <==> |ns| > 0
    ensures t.Some? ==> t.value in ns && t.value.id in NodeIds(ns)
  {
    var i := PickIndex(r, |ns|);
    if i < |ns| then (assert NodeIds(ns)[i] == ns[i].id; Some(ns[i])) else None
  }

  function ToolNode(id: string, x: real, y: real): Node
  {
    Node(id, x, y, Added, ToolRadius, 0.0, 0.0)
  }

  /** The edges a new tool node is connected with: one to each of two random targets,
      the second only when it is not the first. */
  function ToolEdges(ns: seq<Node>, newId: string, r1: real, r2: real): seq<Edge>
    requires 0.0 <= r1 < 1.0 && 0.0 <= r2 < 1.0
  {
    var t1 := Target(ns, r1);
    var t2 := Target(ns, r2);
    (if t1.Some? then [Edge("e-" + newId + "-1", newId, t1.value.id, ToolThroughput, false)] else [])
    + (if t2.Some? && (t1.None? || t2.value.id != t1.value.id)
       then [Edge("e-" + newId + "-2", newId, t2.value.id, ToolThroughput, false)]
       else [])
  }

  /** No edge is added to an empty graph and one or two otherwise, two exactly when the
      two picked targets differ; every new edge leaves the new node for a node that
      existed before, two new edges never share a target, and with a fresh id none of
      them is a self-loop. */
  lemma ToolEdgesShape(ns: seq<Node>, newId: string, r1: real, r2: real)
    requires 0.0 <= r1 < 1.0 && 0.0 <= r2 < 1.0
    ensures |ns| == 0 <==> ToolEdges(ns, newId, r1, r2) == []
    ensures |ToolEdges(ns, newId, r1, r2)| <= 2
    ensures forall e <- ToolEdges(ns, newId, r1, r2) ::
              e.from == newId && e.to in NodeIds(ns) && e.throughput == ToolThroughput && !e.isBottleneck
    ensures |ToolEdges(ns, newId, r1, r2)| == 2 ==> ToolEdges(ns, newId, r1, r2)[0].to != ToolEdges(ns, newId, r1, r2)[1].to
    ensures |ns| > 0 ==> (|ToolEdges(ns, newId, r1, r2)| == 2 <==> Target(ns, r1).value.id != Target(ns, r2).value.id)
    ensures newId !in NodeIds(ns) ==> forall e <- ToolEdges(ns, newId, r1, r2) :: e.from != e.to
  {
  }

  // ---------------------------------------------------------------------------
  // Automate an edge
  // ---------------------------------------------------------------------------

  /** `edges.find(e => e.id !== id && Math.random() > 0.7)`, where `rolls[j]` is the
      draw made for edge `j`. */
  function FirstOther(es: seq<Edge>, id: string, rolls: seq<real>): (r: Option<nat>)
    requires |rolls| == |es|
    ensures r.Some? ==> r.value < |es| && es[r.value].id != id && rolls[r.value] > BottleneckRoll
    ensures forall j :: 0 <= j < |es| && (r.None? || j < r.value) ==> es[j].id == id || rolls[j] <= BottleneckRoll
  {
    if |es| == 0 then None
    else if es[0].id != id && rolls[0] > BottleneckRoll then Some(0)
    else match FirstOther(es[1..], id, rolls[1..])
      case Some(j) => Some(j + 1)
      case None => None
  }

  /** The edge list after clicking edge `k`: that edge is sped up and cleared, and the
      first other edge whose roll passes becomes a slow bottleneck. */
  function Automated(es: seq<Edge>, k: nat, rolls: seq<real>): seq<Edge>
    requires k < |es| && |rolls| == |es|
  {
    var fixed := es[k := es[k].(throughput := AutomatedThroughput, isBottleneck := false)];
    match FirstOther(fixed, es[k].id, rolls)
    case Some(j) => fixed[j := fixed[j].(isBottleneck := true, throughput := BottleneckThroughput)]
    case None => fixed
  }

  /** Automating keeps the list's length and every edge's id and endpoints; the clicked
      edge runs at 0.9 and is no bottleneck; the first edge with another id whose roll
      passed becomes a bottleneck at 0.1, and it is the only other edge that can
      change. */
  lemma AutomatedShape(es: seq<Edge>, k: nat, rolls: seq<real>)
    requires k < |es| && |rolls| == |es|
    ensures |Automated(es, k, rolls)| == |es|
    ensures Automated(es, k, rolls)[k] == es[k].(throughput := AutomatedThroughput, isBottleneck := false)
    ensures forall i :: 0 <= i < |es| ==>
              Automated(es, k, rolls)[i].id == es[i].id
              && Automated(es, k, rolls)[i].from == es[i].from
              && Automated(es, k, rolls)[i].to == es[i].to
    ensures forall i :: 0 <= i < |es| && i != k && Automated(es, k, rolls)[i] != es[i] ==>
              && Automated(es, k, rolls)[i] == es[i].(isBottleneck := true, throughput := BottleneckThroughput)
              && es[i].id != es[k].id && rolls[i] > BottleneckRoll
              && forall j :: 0 <= j < i && j != k ==> es[j].id == es[k].id || rolls[j] <= BottleneckRoll
    ensures forall i, j :: 0 <= i < j < |es| && i != k && j != k ==>
              Automated(es, k, rolls)[i] == es[i] || Automated(es, k, rolls)[j] == es[j]
    ensures forall i :: (0 <= i < |es| && es[i].id != es[k].id && rolls[i] > BottleneckRoll
                         && forall j :: 0 <= j < i ==> es[j].id == es[k].id || rolls[j] <= BottleneckRoll) ==>
              Automated(es, k, rolls)[i] == es[i].(isBottleneck := true, throughput := BottleneckThroughput)
  {
    var fixed := es[k := es[k].(throughput := AutomatedThroughput, isBottleneck := false)];
    forall i | 0 <= i < |es| && es[i].id != es[k].id && rolls[i] > BottleneckRoll
               && (forall j :: 0 <= j < i ==> es[j].id == es[k].id || rolls[j] <= BottleneckRoll)
      ensures FirstOther(fixed, es[k].id, rolls) == Some(i)
    {
    }
  }

  // ---------------------------------------------------------------------------
  // Redesign
  // ---------------------------------------------------------------------------

  /** The edges from index `i` on that `filter((_, i) => i % 2 === 0 || i < 4)` keeps. */
  function KeptFrom(es: seq<Edge>, i: nat): seq<Edge>
    decreases |es| - i
  {
    if i >= |es| then []
    else (if i % 2 == 0 || i < PrunePrefix then [es[i]] else []) + KeptFrom(es, i + 1)
  }

  function Pruned(es: seq<Edge>): seq<Edge>
  {
    KeptFrom(es, 0)
  }

  lemma {:induction false} KeptFromEven(es: seq<Edge>, i: nat)
    requires PrunePrefix <= i <= |es| && i % 2 == 0
    ensures |KeptFrom(es, i)| == (|es| - i + 1) / 2
    ensures forall j :: 0 <= j < |KeptFrom(es, i)| ==> KeptFrom(es, i)[j] == es[i + 2 * j]
    decreases |es| - i
  {
    if i == |es| {
    } else if i + 1 == |es| {
      assert KeptFrom(es, i + 1) == [];
    } else {
      KeptFromEven(es, i + 2);
      assert KeptFrom(es, i + 1) == KeptFrom(es, i + 2);
      assert KeptFrom(es, i) == [es[i]] + KeptFrom(es, i + 2);
    }
  }

  /** Pruning a list of at least four edges keeps the first four and then every edge at
      an even index, in order: the j-th survivor is edge j for j < 4 and edge 2j - 4
      after that. */
  lemma {:induction false} PrunedShape(es: seq<Edge>)
    requires |es| >= PrunePrefix
    ensures |Pruned(es)| == PrunePrefix + (|es| - PrunePrefix + 1) / 2
    ensures |Pruned(es)| <= |es|
    ensures forall j :: 0 <= j < |Pruned(es)| ==> Pruned(es)[j] == es[if j < PrunePrefix then j else 2 * j - PrunePrefix]
  {
    KeptFromEven(es, 4);
    assert KeptFrom(es, 3) == [es[3]] + KeptFrom(es, 4);
    assert KeptFrom(es, 2) == [es[2]] + KeptFrom(es, 3);
    assert KeptFrom(es, 1) == [es[1]] + KeptFrom(es, 2);
    assert KeptFrom(es, 0) == [es[0]] + KeptFrom(es, 1);
    assert Pruned(es) == es[..4] + KeptFrom(es, 4);
  }

  /** Every edge cleared of its bottleneck and set to the uniform redesign throughput. */
  function Retuned(es: seq<Edge>): seq<Edge>
  {
    seq(|es|, i requires 0 <= i < |es| => es[i].(isBottleneck := false, throughput := RedesignThroughput))
  }

  /** The edge list a redesign leaves behind. */
  function RedesignedEdges(es: seq<Edge>): seq<Edge>
  {
    Retuned(if |es| > PruneThreshold then Pruned(es) else es)
  }

  /** A redesign never adds edges, keeps every surviving edge's id and endpoints, prunes
      only above five edges, and leaves no bottleneck and a uniform throughput. */
  lemma {:induction false} RedesignedEdgesShape(es: seq<Edge>)
    ensures |RedesignedEdges(es)| <= |es|
    ensures |es| <= PruneThreshold ==> |RedesignedEdges(es)| == |es|
    ensures forall e <- RedesignedEdges(es) :: !e.isBottleneck && e.throughput == RedesignThroughput
    ensures forall j :: 0 <= j < |RedesignedEdges(es)| ==>
              var i := if |es| <= PruneThreshold || j < PrunePrefix then j else 2 * j - PrunePrefix;
              i < |es| && RedesignedEdges(es)[j] == es[i].(isBottleneck := false, throughput := RedesignThroughput)
  {
    if |es| > PruneThreshold {
      PrunedShape(es);
    }
  }

  /** Redesign keeps the graph invariant: surviving edges still join existing nodes,
      and every throughput is in range. */
  lemma RedesignKeepsGraph(ns: seq<Node>, es: seq<Edge>)
    requires EndpointsExist(ns, es)
    ensures EndpointsExist(ns, RedesignedEdges(es)) && ThroughputsInRange(RedesignedEdges(es))
  {
    RedesignedEdgesShape(es);
    var r := RedesignedEdges(es);
    forall j | 0 <= j < |r|
      ensures r[j].from in NodeIds(ns) && r[j].to in NodeIds(ns)
    {
      var i := if |es| <= PruneThreshold || j < PrunePrefix then j else 2 * j - PrunePrefix;
      assert r[j].from == es[i].from && r[j].to == es[i].to;
    }
  }

  /** The pruning filter, written as the loop the list filter performs. */
  method PruneEdges(es: seq<Edge>) returns (kept: seq<Edge>)
    ensures kept == Pruned(es)
  {
    kept := [];
    var i := 0;
    while i < |es|
      invariant 0 <= i <= |es|
      invariant kept + KeptFrom(es, i) == Pruned(es)
      decreases |es| - i
    {
      if i % 2 == 0 || i < PrunePrefix {
        kept := kept + [es[i]];
      }
      i := i + 1;
    }
  }

  /** Each node's velocity nudged by the given vector (the circular-layout kick). */
  function Nudged(ns: seq<Node>, nudges: seq<(real, real)>): seq<Node>
    requires |nudges| == |ns|
  {
    seq(|ns|, i requires 0 <= i < |ns| => ns[i].(vx := ns[i].vx + nudges[i].0, vy := ns[i].vy + nudges[i].1))
  }

  // ---------------------------------------------------------------------------
  // Particles
  // ---------------------------------------------------------------------------

  /** The particle spawned in a frame, if any: with a spawn draw below 0.05 and at least
      one edge, one particle at the start of a random edge, at a speed that grows with
      the edge's throughput. */
  function Spawned(es: seq<Edge>, rSpawn: real, rEdge: real, pid: string): (ps: seq<Particle>)
    requires 0.0 <= rEdge < 1.0
    ensures |ps| <= 1
    ensures |ps| == 1 <==> rSpawn < SpawnChance && |es| > 0
    ensures |ps| == 1 ==> ps[0].id == pid && ps[0].progress == 0.0
    ensures |ps| == 1 ==> exists e <- es :: ps[0].edgeId == e.id && ps[0].speed == 0.005 + e.throughput * 0.01
  {
    if rSpawn < SpawnChance && |es| > 0 then
      var e := es[PickIndex(rEdge, |es|)];
      assert e in es;
      [Particle(pid, e.id, 0.0, 0.005 + e.throughput * 0.01)]
    else []
  }

  /** One particle after a frame: moved along its edge, slowed on a bottleneck, or
      pushed past the end when its edge is gone. */
  function Advanced(p: Particle, es: seq<Edge>): Particle
  {
    match FindEdge(es, p.edgeId)
    case Some(k) => p.(progress := p.progress + p.speed * (if es[k].isBottleneck then BottleneckSlowdown else 1.0))
    case None => p.(progress := OrphanProgress)
  }

  function AdvanceAll(ps: seq<Particle>, es: seq<Edge>): seq<Particle>
  {
    seq(|ps|, i requires 0 <= i < |ps| => Advanced(ps[i], es))
  }

  /** `particles.filter(p => p.progress < 1)`. */
  function Live(ps: seq<Particle>): seq<Particle>
  {
    if |ps| == 0 then []
    else Live(ps[..|ps| - 1]) + (if ps[|ps| - 1].progress < 1.0 then [ps[|ps| - 1]] else [])
  }

  /** A particle whose edge exists moves forward by its full speed on a clear edge and
      by a fifth of it on a bottleneck; an orphaned one is pushed to the end. Id, edge
      and speed never change. */
  lemma AdvancedMoves(p: Particle, es: seq<Edge>)
    requires p.speed > 0.0
    ensures Advanced(p, es).id == p.id && Advanced(p, es).edgeId == p.edgeId && Advanced(p, es).speed == p.speed
    ensures FindEdge(es, p.edgeId).Some? ==> p.progress < Advanced(p, es).progress <= p.progress + p.speed
    ensures FindEdge(es, p.edgeId).Some? && !es[FindEdge(es, p.edgeId).value].isBottleneck ==>
              Advanced(p, es).progress == p.progress + p.speed
    ensures FindEdge(es, p.edgeId).Some? && es[FindEdge(es, p.edgeId).value].isBottleneck ==>
              Advanced(p, es).progress == p.progress + p.speed / 5.0
    ensures FindEdge(es, p.edgeId).None? ==> Advanced(p, es).progress >= 1.0
  {
  }

  /** The filter keeps exactly the particles short of the end, and no more of them. */
  lemma {:induction false} LiveMembers(ps: seq<Particle>)
    ensures forall p :: p in Live(ps) <==> p in ps && p.progress < 1.0
    ensures |Live(ps)| <= |ps|
  {
    if |ps| > 0 {
      var init := ps[..|ps| - 1];
      LiveMembers(init);
      assert ps == init + [ps[|ps| - 1]];
    }
  }

  /** After a frame every remaining particle is short of the end, rides an edge that
      exists, and has moved forward. */
  lemma {:induction false} FrameOutcome(ps: seq<Particle>, es: seq<Edge>)
    requires InFlight(ps)
    ensures InFlight(Live(AdvanceAll(ps, es)))
    ensures forall q <- Live(AdvanceAll(ps, es)) :: FindEdge(es, q.edgeId).Some?
    ensures forall i :: 0 <= i < |ps| && FindEdge(es, ps[i].edgeId).Some? ==>
              AdvanceAll(ps, es)[i].progress > ps[i].progress
    ensures |Live(AdvanceAll(ps, es))| <= |ps|
  {
    var adv := AdvanceAll(ps, es);
    LiveMembers(adv);
    forall i | 0 <= i < |ps|
      ensures adv[i].speed > 0.0 && adv[i].edgeId == ps[i].edgeId
      ensures adv[i].progress < 1.0 ==> 0.0 <= adv[i].progress && FindEdge(es, adv[i].edgeId).Some?
      ensures FindEdge(es, ps[i].edgeId).Some? ==> adv[i].progress > ps[i].progress
    {
      AdvancedMoves(ps[i], es);
    }
    var live := Live(adv);
    forall i | 0 <= i < |live|
      ensures 0.0 <= live[i].progress < 1.0 && live[i].speed > 0.0
    {
      assert live[i] in live;
    }
  }

  /** The filter step of a frame, written as the loop the list filter performs. */
  method KeepLive(ps: seq<Particle>) returns (kept: seq<Particle>)
    ensures kept == Live(ps)
  {
    kept := [];
    var i := 0;
    while i < |ps|
      invariant 0 <= i <= |ps|
      invariant kept == Live(ps[..i])
    {
      assert ps[..i + 1][..i] == ps[..i];
      if ps[i].progress < 1.0 {
        kept := kept + [ps[i]];
      }
      i := i + 1;
    }
    assert ps[..i] == ps;
  }

  // ---------------------------------------------------------------------------
  // Pointer hit tests and dragging
  // ---------------------------------------------------------------------------

  function Dist2(dx: real, dy: real): (d: real)
    ensures d >= 0.0
  {
    dx * dx + dy * dy
  }

  /** The first node within 20 px of the pointer. */
  function HitNode(ns: seq<Node>, px: real, py: real): (r: Option<nat>)
    ensures r.Some? ==> r.value < |ns| && Dist2(ns[r.value].x - px, ns[r.value].y - py) < NodeHitDistSq
    ensures forall j :: 0 <= j < |ns| && (r.None? || j < r.value) ==> Dist2(ns[j].x - px, ns[j].y - py) >= NodeHitDistSq
  {
    FirstWhere(ns, (n: Node) => Dist2(n.x - px, n.y - py) < NodeHitDistSq)
  }

  /** The point of segment (x1, y1)-(x2, y2) nearest the pointer: the projection clamped
      to the segment; a zero-length segment gives its first endpoint. */
  function ClosestOnSegment(px: real, py: real, x1: real, y1: real, x2: real, y2: real): (c: (real, real))
    ensures x1 == x2 && y1 == y2 ==> c == (x1, y1)
  {
    var cx := x2 - x1;
    var cy := y2 - y1;
    var lenSq := cx * cx + cy * cy;
    var param := if lenSq != 0.0 then ((px - x1) * cx + (py - y1) * cy) / lenSq else -1.0;
    if param < 0.0 then (x1, y1)
    else if param > 1.0 then (x2, y2)
    else (x1 + param * cx, y1 + param * cy)
  }

  /** An edge is under the pointer when both its endpoints exist and the segment passes
      within 10 px. */
  predicate EdgeNear(ns: seq<Node>, e: Edge, px: real, py: real)
  {
    match (FindNode(ns, e.from), FindNode(ns, e.to))
    case (Some(i), Some(j)) =>
      var c := ClosestOnSegment(px, py, ns[i].x, ns[i].y, ns[j].x, ns[j].y);
      Dist2(px - c.0, py - c.1) < EdgeHitDistSq
    case _ => false
  }

  /** The first edge under the pointer. */
  function HitEdge(ns: seq<Node>, es: seq<Edge>, px: real, py: real): (r: Option<nat>)
    ensures r.Some? ==> r.value < |es| && EdgeNear(ns, es[r.value], px, py)
    ensures forall j :: 0 <= j < |es| && (r.None? || j < r.value) ==> !EdgeNear(ns, es[j], px, py)
  {
    FirstWhere(es, (e: Edge) => EdgeNear(ns, e, px, py))
  }

  /** The node list after a pointer move: the first node with the dragged id, if there
      is one, sits at the pointer at rest; nothing else changes. */
  function Dragged(ns: seq<Node>, drag: Option<string>, px: real, py: real): (r: seq<Node>)
    ensures NodeIds(r) == NodeIds(ns)
    ensures forall i :: 0 <= i < |ns| ==>
              r[i] == ns[i] || (drag == Some(ns[i].id) && r[i] == ns[i].(x := px, y := py, vx := 0.0, vy := 0.0))
    ensures forall i :: 0 <= i < |ns| && r[i] != ns[i] ==> forall j :: 0 <= j < i ==> ns[j].id != ns[i].id
    ensures forall i, j :: 0 <= i < j < |ns| ==> r[i] == ns[i] || r[j] == ns[j]
    ensures forall i :: (0 <= i < |ns| && drag == Some(ns[i].id) && drag.value != ""
                         && forall j :: 0 <= j < i ==> ns[j].id != ns[i].id) ==>
              r[i] == ns[i].(x := px, y := py, vx := 0.0, vy := 0.0)
  {
    if drag.Some? && drag.value != "" then
      match FindNode(ns, drag.value)
      case Some(i) =>
        var r := ns[i := ns[i].(x := px, y := py, vx := 0.0, vy := 0.0)];
        assert forall j :: 0 <= j < |ns| ==> NodeIds(r)[j] == NodeIds(ns)[j];
        r
      case None => ns
    else ns
  }

  // ---------------------------------------------------------------------------
  // The widget
  // ---------------------------------------------------------------------------

  class LivingSystem {
    const width: nat
    const height: nat
    var nodes: seq<Node>
    var edges: seq<Edge>
    var particles: seq<Particle>
    var dragging: Option<string>
    var stage: Stage
    var mouseX: real
    var mouseY: real

    ghost predicate Valid()
      reads this
    {
      EndpointsExist(nodes, edges) && ThroughputsInRange(edges) && InFlight(particles)
    }

    /** Mounting the widget on a canvas of the given size builds the initial graph. */
    constructor (width: nat, height: nat)
      ensures Valid()
      ensures this.width == width && this.height == height
      ensures nodes == InitialNodes(width, height) && edges == InitialEdges()
      ensures particles == [] && stage == Initial
      ensures dragging == None && mouseX == 0.0 && mouseY == 0.0
    {
      this.width := width;
      this.height := height;
      nodes := InitialNodes(width, height);
      edges := InitialEdges();
      particles := [];
      stage := Initial;
      dragging := None;
      mouseX, mouseY := 0.0, 0.0;
    }

    /** Reset: the initial graph, no particles, the initial stage. */
    method InitSystem()
      modifies this
      ensures Valid()
      ensures nodes == InitialNodes(width, height) && edges == InitialEdges()
      ensures particles == [] && stage == Initial
      ensures dragging == old(dragging) && mouseX == old(mouseX) && mouseY == old(mouseY)
    {
      nodes := InitialNodes(width, height);
      edges := InitialEdges();
      particles := [];
      stage := Initial;
    }

    /** The particle half of a physics frame: maybe spawn a particle, move every
        particle along its edge, and drop those that reached the end. */
    method StepParticles(rSpawn: real, rEdge: real, pid: string)
      requires Valid() && 0.0 <= rEdge < 1.0
      modifies this`particles
      ensures Valid()
      ensures particles == Live(AdvanceAll(old(particles) + Spawned(edges, rSpawn, rEdge, pid), edges))
    {
      if rSpawn < SpawnChance {
        var k := PickIndex(rEdge, |edges|);
        if k < |edges| {
          var e := edges[k];
          particles := particles + [Particle(pid, e.id, 0.0, 0.005 + e.throughput * 0.01)];
        }
      }
      ghost var spawned := particles;
      assert spawned == old(particles) + Spawned(edges, rSpawn, rEdge, pid);
      assert InFlight(spawned);

      var i := 0;
      while i < |particles|
        invariant 0 <= i <= |particles| == |spawned|
        invariant forall j :: 0 <= j < i ==> particles[j] == Advanced(spawned[j], edges)
        invariant forall j :: i <= j < |particles| ==> particles[j] == spawned[j]
      {
        var p := particles[i];
        var k := FindEdge(edges, p.edgeId);
        if k.Some? {
          var speedMod := if edges[k.value].isBottleneck then BottleneckSlowdown else 1.0;
          particles := particles[i := p.(progress := p.progress + p.speed * speedMod)];
        } else {
          particles := particles[i := p.(progress := OrphanProgress)];
        }
        i := i + 1;
      }
      assert particles == AdvanceAll(spawned, edges);

      FrameOutcome(spawned, edges);
      particles := KeepLive(particles);
    }

    /** Pointer move: remember the pointer and carry the dragged node with it. */
    method MouseMove(px: real, py: real)
      requires Valid()
      modifies this`nodes, this`mouseX, this`mouseY
      ensures Valid()
      ensures mouseX == px && mouseY == py
      ensures nodes == Dragged(old(nodes), dragging, px, py)
    {
      mouseX, mouseY := px, py;
      if dragging.Some? && dragging.value != "" {
        var found := FindNode(nodes, dragging.value);
        if found.Some? {
          var i := found.value;
          nodes := nodes[i := nodes[i].(x := px, y := py, vx := 0.0, vy := 0.0)];
        }
      }
      assert nodes == Dragged(old(nodes), dragging, px, py);
    }

    /** Pointer down: grab the first node under the pointer; only when there is none,
        automate the first edge under it. */
    method MouseDown(px: real, py: real, rolls: seq<real>)
      requires Valid() && |rolls| == |edges|
      modifies this`dragging, this`edges
      ensures Valid()
      ensures HitNode(nodes, px, py).Some? ==>
                dragging == Some(nodes[HitNode(nodes, px, py).value].id) && edges == old(edges)
      ensures HitNode(nodes, px, py).None? ==>
                && dragging == old(dragging)
                && edges == (if HitEdge(nodes, old(edges), px, py).Some?
                             then Automated(old(edges), HitEdge(nodes, old(edges), px, py).value, rolls)
                             else old(edges))
    {
      var hitNode := HitNode(nodes, px, py);
      if hitNode.Some? {
        dragging := Some(nodes[hitNode.value].id);
      } else {
        var hitEdge := HitEdge(nodes, edges, px, py);
        if hitEdge.Some? {
          AutomateEdge(hitEdge.value, rolls);
        }
      }
    }

    /** Pointer up (or leaving the canvas): stop dragging. */
    method MouseUp()
      requires Valid()
      modifies this`dragging
      ensures Valid()
      ensures dragging == None
    {
      dragging := None;
    }

    /** Automate the clicked edge `k`, at the price of a bottleneck elsewhere. */
    method AutomateEdge(k: nat, rolls: seq<real>)
      requires Valid() && k < |edges| && |rolls| == |edges|
      modifies this`edges
      ensures Valid()
      ensures edges == Automated(old(edges), k, rolls)
    {
      var clicked := edges[k];
      edges := edges[k := clicked.(throughput := AutomatedThroughput, isBottleneck := false)];
      var other := FirstOther(edges, clicked.id, rolls);
      if other.Some? {
        var j := other.value;
        edges := edges[j := edges[j].(isBottleneck := true, throughput := BottleneckThroughput)];
      }
      AutomatedShape(old(edges), k, rolls);
    }

    /** Add a tool node with id "new-" + `stamp` at the pointer (or the canvas centre),
        wired to up to two random existing nodes; refused once the system is optimized. */
    method AddTool(stamp: string, r1: real, r2: real)
      requires Valid() && 0.0 <= r1 < 1.0 && 0.0 <= r2 < 1.0
      modifies this`nodes, this`edges, this`stage
      ensures Valid()
      ensures old(stage) == Optimized ==> nodes == old(nodes) && edges == old(edges) && stage == Optimized
      ensures old(stage) != Optimized ==>
                && nodes == old(nodes) + [ToolNode("new-" + stamp,
                                                   OrReal(mouseX, OrDefault(width, DefaultWidth) as real / 2.0),
                                                   OrReal(mouseY, OrDefault(height, DefaultHeight) as real / 2.0))]
                && edges == old(edges) + ToolEdges(old(nodes), "new-" + stamp, r1, r2)
                && stage == Complexity
    {
      if stage == Optimized {
        return;
      }
      var w := OrDefault(width, DefaultWidth);
      var h := OrDefault(height, DefaultHeight);
      var newId := "new-" + stamp;
      var newNode := ToolNode(newId, OrReal(mouseX, w as real / 2.0), OrReal(mouseY, h as real / 2.0));

      var target1 := Target(nodes, r1);
      var target2 := Target(nodes, r2);

      NodeIdsAppend(nodes, newNode);
      ToolEdgesShape(nodes, newId, r1, r2);
      nodes := nodes + [newNode];
      if target1.Some? {
        edges := edges + [Edge("e-" + newId + "-1", newId, target1.value.id, ToolThroughput, false)];
      }
      if target2.Some? && (target1.None? || target2.value.id != target1.value.id) {
        edges := edges + [Edge("e-" + newId + "-2", newId, target2.value.id, ToolThroughput, false)];
      }
      stage := Complexity;
    }

    /** Redesign: kick every node towards a circle (the kick vectors are given),
        prune the edges when there are more than five, and set every edge to the
        same healthy throughput. Nothing happens on an empty graph. */
    method Redesign(nudges: seq<(real, real)>)
      requires Valid() && |nudges| == |nodes|
      modifies this`nodes, this`edges, this`stage
      ensures Valid()
      ensures |old(nodes)| == 0 ==> nodes == old(nodes) && edges == old(edges) && stage == old(stage)
      ensures |old(nodes)| > 0 ==>
                && nodes == Nudged(old(nodes), nudges)
                && edges == RedesignedEdges(old(edges))
                && stage == Optimized
      ensures |edges| <= |old(edges)|
    {
      if |nodes| == 0 {
        return;
      }

      var i := 0;
      while i < |nodes|
        invariant 0 <= i <= |nodes| == |old(nodes)|
        invariant forall j :: 0 <= j < i ==> nodes[j] == Nudged(old(nodes), nudges)[j]
        invariant forall j :: i <= j < |nodes| ==> nodes[j] == old(nodes)[j]
        modifies this`nodes
      {
        nodes := nodes[i := nodes[i].(vx := nodes[i].vx + nudges[i].0, vy := nodes[i].vy + nudges[i].1)];
        i := i + 1;
      }
      assert nodes == Nudged(old(nodes), nudges);
      assert NodeIds(nodes) == NodeIds(old(nodes));

      if |edges| > PruneThreshold {
        edges := PruneEdges(edges);
      }
      ghost var survivors := edges;
      assert survivors == if |old(edges)| > PruneThreshold then Pruned(old(edges)) else old(edges);

      i := 0;
      while i < |edges|
        invariant 0 <= i <= |edges| == |survivors|
        invariant forall j :: 0 <= j < i ==> edges[j] == Retuned(survivors)[j]
        invariant forall j :: i <= j < |edges| ==> edges[j] == survivors[j]
        modifies this`edges
      {
        edges := edges[i := edges[i].(isBottleneck := false, throughput := RedesignThroughput)];
        i := i + 1;
      }
      assert edges == Retuned(survivors);
      RedesignedEdgesShape(old(edges));
      RedesignKeepsGraph(old(nodes), old(edges));
      stage := Optimized;
    }
  }
}

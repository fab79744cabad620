/** The polygon-based Probabilistic Roadmap planner (`PRMPlannerPolygon`).

    The planner is an immutable record; every Python method that mutates
    `self` becomes a function from the old record to the new one. Node objects
    live in a store `heap`: a node's identity is its index, its pose the entry
    there, and `Node(pose)` appends a fresh entry. Clock readings, the
    sampler's answers and the code of collaborators are parameters. */
module Prm {
  import opened Outcomes
  import opened Poses
  import opened Motion
  import opened Worlds
  import opened SearchGraph

  /** Code outside the planner, consumed as uninterpreted functions:
      `SearchGraph.find_path`, `reduce_waypoints_polygon` and `Path.fill_yaws`
      (the latter seen as a function from the path's poses to its poses). */
  datatype Externals = Externals(
    findPath: (Graph, NodeId, NodeId) -> seq<NodeId>,
    reduceWaypoints: (World, seq<Pose>) -> seq<Pose>,
    fillYaws: seq<Pose> -> seq<Pose>)
  {
    /** The search only ever returns nodes of the graph it searched. */
    ghost predicate SearchStaysInGraph() {
      forall g, a, b, i :: 0 <= i < |findPath(g, a, b)| ==> findPath(g, a, b)[i] in g.nodes
    }
  }

  datatype PolygonPlanner = PolygonPlanner(
    compressPath: bool,
    maxConnectionDist: real,
    maxNodes: int,
    world: World,
    heap: seq<Pose>,
    graph: Graph,
    latestPath: Path,
    planningTime: real,
    samplingTime: real)

  /** The roadmap is well formed and refers only to allocated nodes. */
  predicate Valid(p: PolygonPlanner) {
    && p.graph.WellFormed()
    && forall n :: n in p.graph.nodes ==> n < |p.heap|
  }

  /** The world's verdict on joining node `a` to node `b`, in that order. */
  predicate Approves(p: PolygonPlanner, a: NodeId, b: NodeId) {
    && a < |p.heap|
    && b < |p.heap|
    && p.world.isConnectable(p.heap[a], p.heap[b], p.maxConnectionDist)
  }

  // ---------------------------------------------------------------------
  // Roadmap construction

  /** The number of iterations of Python's `range(max_nodes)`. */
  function Limit(maxNodes: int): nat {
    if maxNodes < 0 then 0 else maxNodes
  }

  /** The poses sampled, and whether sampling stopped before the cap. */
  datatype Sampling = Sampling(poses: seq<Pose>, stoppedEarly: bool)

  /** The sampling loop from iteration `i` on: stop at the cap or at the first
      failed sample, which is not retried. The `k`-th call of
      `sample_configuration` answers `draws(k)`; `None` is a failed sample. */
  function Sample(draws: nat -> Option<Pose>, limit: nat, i: nat): (s: Sampling)
    requires i <= limit
    decreases limit - i
    ensures i + |s.poses| <= limit
    ensures forall k :: 0 <= k < |s.poses| ==> draws(i + k) == Some(s.poses[k])
    ensures s.stoppedEarly <==> i + |s.poses| < limit
    ensures s.stoppedEarly ==> draws(i + |s.poses|).None?
  {
    if i == limit then Sampling([], false)
    else
      match draws(i)
      case None => Sampling([], true)
      case Some(pose) =>
        var rest := Sample(draws, limit, i + 1);
        assert forall k :: 1 <= k < 1 + |rest.poses| ==> ([pose] + rest.poses)[k] == rest.poses[k - 1];
        Sampling([pose] + rest.poses, rest.stoppedEarly)
  }

  /** How many times the sampling loop calls the sampler. */
  function SamplerCalls(s: Sampling): nat {
    |s.poses| + if s.stoppedEarly then 1 else 0
  }

  /** Sampling reads the sampler's answers only up to the first failure: two
      samplers that agree on the calls actually made give the same result. */
  lemma {:induction false} SampleReadsOnlyItsCalls(d1: nat -> Option<Pose>, d2: nat -> Option<Pose>, limit: nat, i: nat)
    requires i <= limit
    requires forall k :: i <= k < i + SamplerCalls(Sample(d1, limit, i)) ==> d1(k) == d2(k)
    ensures Sample(d1, limit, i) == Sample(d2, limit, i)
    decreases limit - i
  {
    if i < limit {
      assert d1(i) == d2(i);
      if d1(i).Some? {
        SampleReadsOnlyItsCalls(d1, d2, limit, i + 1);
      }
    }
  }

  /** The inner loop of `connect_neighbors(n)` over the nodes `others`. */
  function Link(p: PolygonPlanner, n: NodeId, others: seq<NodeId>): (r: PolygonPlanner)
    decreases |others|
    ensures r == p.(graph := r.graph)
    ensures r.graph.nodes == p.graph.nodes
    ensures p.graph.edges <= r.graph.edges
    ensures forall e :: e in r.graph.edges && e !in p.graph.edges ==>
      && e.lo < e.hi
      && ((e.lo == n && e.hi in others && Approves(p, n, e.hi)) ||
          (e.hi == n && e.lo in others && Approves(p, n, e.lo)))
    ensures forall o :: o in others && o != n && Approves(p, n, o) ==> Between(n, o) in r.graph.edges
  {
    if others == [] then p
    else
      var o := others[0];
      var p' := if o != n && Approves(p, n, o) then p.(graph := AddEdge(p.graph, n, o)) else p;
      assert forall m :: m in others[1..] ==> m in others;
      Link(p', n, others[1..])
  }

  /** `connect_neighbors(n)`: join `n` to every other roadmap node the world
      approves, checked from `n`'s side. Nodes are untouched, no edge is lost,
      no self-loop appears, and every new edge is incident to `n`. */
  function ConnectNeighbors(p: PolygonPlanner, n: NodeId): (r: PolygonPlanner)
    ensures r == p.(graph := r.graph)
    ensures r.graph.nodes == p.graph.nodes
    ensures p.graph.edges <= r.graph.edges
    ensures forall e :: e in r.graph.edges && e !in p.graph.edges ==>
      && e.lo < e.hi
      && ((e.lo == n && e.hi in p.graph.nodes && Approves(p, n, e.hi)) ||
          (e.hi == n && e.lo in p.graph.nodes && Approves(p, n, e.lo)))
    ensures forall o :: o in p.graph.nodes && o != n && Approves(p, n, o) ==> Between(n, o) in r.graph.edges
    ensures Valid(p) && n in p.graph.nodes ==> Valid(r)
  {
    Link(p, n, p.graph.nodes)
  }

  /** The outer loop of `reset`: `connect_neighbors` for each node of
      `pending` in turn, always against the whole node set. */
  function ConnectEach(p: PolygonPlanner, pending: seq<NodeId>): (r: PolygonPlanner)
    requires forall m :: m in pending ==> m in p.graph.nodes
    decreases |pending|
    ensures r == p.(graph := r.graph)
    ensures r.graph.nodes == p.graph.nodes
    ensures p.graph.edges <= r.graph.edges
    ensures forall e :: e in r.graph.edges && e !in p.graph.edges ==>
      && e.lo < e.hi
      && e.lo in p.graph.nodes
      && e.hi in p.graph.nodes
      && ((e.lo in pending && Approves(p, e.lo, e.hi)) || (e.hi in pending && Approves(p, e.hi, e.lo)))
    ensures forall a, b :: a in pending && b in p.graph.nodes && a != b && Approves(p, a, b) ==>
      Between(a, b) in r.graph.edges
    ensures Valid(p) ==> Valid(r)
  {
    if pending == [] then p
    else
      var p' := ConnectNeighbors(p, pending[0]);
      assert forall m :: m in pending[1..] ==> m in pending;
      ConnectEach(p', pending[1..])
  }

  /** The sampling phase's graph: one fresh node per sampled pose, in order,
      and no edges. */
  function Populate(p: PolygonPlanner, poses: seq<Pose>): (r: PolygonPlanner)
    ensures Valid(r)
    ensures r == p.(heap := p.heap + poses, graph := r.graph)
    ensures r.graph.edges == {}
    ensures |r.graph.nodes| == |poses|
    ensures forall k :: 0 <= k < |poses| ==> r.graph.nodes[k] == |p.heap| + k
  {
    var ids := seq(|poses|, k requires 0 <= k => |p.heap| + k);
    p.(heap := p.heap + poses, graph := Graph(ids, {}))
  }

  /** Connecting every node of an edgeless roadmap against the whole node set
      joins two distinct nodes exactly when the world approves them in at least
      one order. */
  lemma ConnectAllEdges(p: PolygonPlanner)
    requires Valid(p) && p.graph.edges == {}
    ensures forall a, b :: a in p.graph.nodes && b in p.graph.nodes && a != b ==>
      (Between(a, b) in ConnectEach(p, p.graph.nodes).graph.edges <==> Approves(p, a, b) || Approves(p, b, a))
  {
    var r := ConnectEach(p, p.graph.nodes);
    forall a, b | a in p.graph.nodes && b in p.graph.nodes && a != b
      ensures Between(a, b) in r.graph.edges <==> Approves(p, a, b) || Approves(p, b, a)
    {
      BetweenSymmetric(a, b);
    }
  }

  /** The result of `reset`: the rebuilt planner, and the warning issued when
      fewer than `max_nodes` nodes could be sampled (the count reached). */
  datatype Rebuilt = Rebuilt(prm: PolygonPlanner, underflow: Option<nat>)

  /** `reset`: sample up to `max_nodes` fresh nodes into a new graph, stopping
      at the first failed sample, then connect every node against the final
      node set. `elapsed` is the clock reading of the sampling phase. Metrics
      and the latest path are cleared; the configuration is kept. */
  function Reset(p: PolygonPlanner, draws: nat -> Option<Pose>, elapsed: real): (r: Rebuilt)
    ensures Valid(r.prm)
    ensures r.prm == p.(heap := r.prm.heap, graph := r.prm.graph,
                        latestPath := EmptyPath, planningTime := 0.0, samplingTime := elapsed)
  {
    var s := Sample(draws, Limit(p.maxNodes), 0);
    var sampled := Populate(p.(latestPath := EmptyPath, planningTime := 0.0, samplingTime := elapsed), s.poses);
    Rebuilt(ConnectEach(sampled, sampled.graph.nodes), if s.stoppedEarly then Some(|s.poses|) else None)
  }

  /** After `reset` the roadmap holds at most `max_nodes` nodes: one fresh node
      for each successful sample, in sampling order. It holds fewer exactly when
      a sample failed, and then the warning reports how many were sampled. */
  lemma ResetSamples(p: PolygonPlanner, draws: nat -> Option<Pose>, elapsed: real)
    ensures var r := Reset(p, draws, elapsed);
      && p.heap <= r.prm.heap
      && |r.prm.heap| == |p.heap| + |r.prm.graph.nodes|
      && (forall k :: 0 <= k < |r.prm.graph.nodes| ==> r.prm.graph.nodes[k] == |p.heap| + k)
      && |r.prm.graph.nodes| <= Limit(p.maxNodes)
      && (forall k :: 0 <= k < |r.prm.graph.nodes| ==> draws(k) == Some(r.prm.heap[|p.heap| + k]))
      && (|r.prm.graph.nodes| < Limit(p.maxNodes) <==> r.underflow.Some?)
      && (r.underflow.Some? ==> r.underflow.value == |r.prm.graph.nodes| && draws(|r.prm.graph.nodes|).None?)
  {
    var s := Sample(draws, Limit(p.maxNodes), 0);
    var sampled := Populate(p.(latestPath := EmptyPath, planningTime := 0.0, samplingTime := elapsed), s.poses);
    var built := ConnectEach(sampled, sampled.graph.nodes);
    assert Reset(p, draws, elapsed).prm == built;
    assert forall k :: 0 <= k < |s.poses| ==> built.heap[|p.heap| + k] == s.poses[k];
  }

  /** After `reset` an edge joins two distinct roadmap nodes exactly when the
      world approves the pair in at least one order: every node was connected
      against the final node set. */
  lemma ResetEdges(p: PolygonPlanner, draws: nat -> Option<Pose>, elapsed: real)
    ensures var r := Reset(p, draws, elapsed).prm;
      forall a, b :: a in r.graph.nodes && b in r.graph.nodes && a != b ==>
        (Between(a, b) in r.graph.edges <==> Approves(r, a, b) || Approves(r, b, a))
  {
    var s := Sample(draws, Limit(p.maxNodes), 0);
    var sampled := Populate(p.(latestPath := EmptyPath, planningTime := 0.0, samplingTime := elapsed), s.poses);
    ConnectAllEdges(sampled);
  }

  /** With a world whose verdict does not depend on the order of the two
      poses, an edge after `reset` joins two distinct nodes exactly when the
      world approves that pair. */
  lemma ResetEdgesSymmetricWorld(p: PolygonPlanner, draws: nat -> Option<Pose>, elapsed: real)
    requires forall a, b, d :: p.world.isConnectable(a, b, d) == p.world.isConnectable(b, a, d)
    ensures var r := Reset(p, draws, elapsed).prm;
      forall a, b :: a in r.graph.nodes && b in r.graph.nodes && a != b ==>
        (Between(a, b) in r.graph.edges <==> Approves(r, a, b))
  {
    ResetEdges(p, draws, elapsed);
  }

  // ---------------------------------------------------------------------
  // Queries

  /** A query endpoint: a raw pose, wrapped into a fresh node, or a node
      object the caller already holds. */
  datatype Endpoint = AtPose(pose: Pose) | AtNode(id: NodeId)

  /** The endpoint refers to an allocated node object, if it refers to one. */
  predicate Allocated(p: PolygonPlanner, e: Endpoint) {
    e.AtNode? ==> e.id < |p.heap|
  }

  /** Wrap an endpoint as a node (allocating one for a raw pose) and add it
      to the roadmap. */
  function Admit(p: PolygonPlanner, e: Endpoint): (r: (PolygonPlanner, NodeId))
    requires Valid(p) && Allocated(p, e)
    ensures Valid(r.0)
    ensures r.0 == p.(heap := r.0.heap, graph := r.0.graph)
    ensures r.0.graph.edges == p.graph.edges
    ensures forall m :: m in r.0.graph.nodes <==> m in p.graph.nodes || m == r.1
    ensures e.AtNode? ==> r.1 == e.id && r.0.heap == p.heap
    ensures e.AtPose? ==> r.1 == |p.heap| && r.0.heap == p.heap + [e.pose] && r.0.graph.nodes == p.graph.nodes + [r.1]
  {
    match e
    case AtPose(pose) =>
      var n := |p.heap|;
      (p.(heap := p.heap + [pose], graph := AddNode(p.graph, n)), n)
    case AtNode(n) =>
      (p.(graph := AddNode(p.graph, n)), n)
  }

  /** The planner as the search sees it, with the query's start and goal. */
  datatype Session = Session(prm: PolygonPlanner, start: NodeId, goal: NodeId)

  /** The first steps of `plan`: clear the latest path and the planning time,
      then add start and goal, in that order, wrapping raw poses as fresh
      nodes. The node set grows by start and goal only; no edge changes. */
  function Insert(p: PolygonPlanner, start: Endpoint, goal: Endpoint): (q: Session)
    requires Valid(p) && Allocated(p, start) && Allocated(p, goal)
    ensures Valid(q.prm)
    ensures q.prm == p.(heap := q.prm.heap, graph := q.prm.graph, latestPath := EmptyPath, planningTime := 0.0)
    ensures q.prm.graph.edges == p.graph.edges
    ensures forall m :: m in q.prm.graph.nodes <==> m in p.graph.nodes || m == q.start || m == q.goal
    ensures p.heap <= q.prm.heap
    ensures |q.prm.heap| == |p.heap| + (if start.AtPose? then 1 else 0) + (if goal.AtPose? then 1 else 0)
    ensures start.AtNode? ==> q.start == start.id
    ensures goal.AtNode? ==> q.goal == goal.id
    ensures start.AtPose? ==> q.start == |p.heap| && q.prm.heap[q.start] == start.pose
    ensures goal.AtPose? ==> q.goal == |q.prm.heap| - 1 && q.prm.heap[q.goal] == goal.pose
    ensures start.AtPose? && goal.AtPose? ==> q.prm.graph.nodes == p.graph.nodes + [q.start, q.goal]
  {
    var p0 := p.(latestPath := EmptyPath, planningTime := 0.0);
    var (p1, s) := Admit(p0, start);
    var (p2, t) := Admit(p1, goal);
    assert start.AtPose? && goal.AtPose? ==> p2.graph.nodes == p.graph.nodes + [s, t];
    Session(p2, s, t)
  }

  /** The connection steps of `plan`: `connect_neighbors(start)` and then
      `connect_neighbors(goal)`. Edges are only added, each incident to start
      or goal and approved from that side. Because goal is connected while
      start is present (and the other way round), the two are joined directly
      whenever the world approves them in either order. */
  function ConnectQuery(q: Session): (r: Session)
    requires Valid(q.prm) && q.start in q.prm.graph.nodes && q.goal in q.prm.graph.nodes
    ensures Valid(r.prm)
    ensures r == q.(prm := q.prm.(graph := r.prm.graph))
    ensures r.prm.graph.nodes == q.prm.graph.nodes
    ensures q.prm.graph.edges <= r.prm.graph.edges
    ensures forall e :: e in r.prm.graph.edges && e !in q.prm.graph.edges ==>
      (e.Touches(q.start) && Approves(q.prm, q.start, if e.lo == q.start then e.hi else e.lo)) ||
      (e.Touches(q.goal) && Approves(q.prm, q.goal, if e.lo == q.goal then e.hi else e.lo))
    ensures forall o :: o in q.prm.graph.nodes && o != q.start && Approves(q.prm, q.start, o) ==>
      Between(q.start, o) in r.prm.graph.edges
    ensures forall o :: o in q.prm.graph.nodes && o != q.goal && Approves(q.prm, q.goal, o) ==>
      Between(q.goal, o) in r.prm.graph.edges
    ensures q.start != q.goal && (Approves(q.prm, q.goal, q.start) || Approves(q.prm, q.start, q.goal)) ==>
      Between(q.start, q.goal) in r.prm.graph.edges
  {
    var p3 := ConnectNeighbors(q.prm, q.start);
    var p4 := ConnectNeighbors(p3, q.goal);
    Session(p4, q.start, q.goal)
  }

  /** Everything `plan` does before the search. */
  function Prepare(p: PolygonPlanner, start: Endpoint, goal: Endpoint): Session
    requires Valid(p) && Allocated(p, start) && Allocated(p, goal)
  {
    ConnectQuery(Insert(p, start, goal))
  }

  /** The poses of the nodes `ids`, in order. */
  function PosesOf(heap: seq<Pose>, ids: seq<NodeId>): seq<Pose>
    requires forall i :: 0 <= i < |ids| ==> ids[i] < |heap|
  {
    seq(|ids|, i requires 0 <= i < |ids| => heap[ids[i]])
  }

  /** `plan(start, goal)`: returns the updated planner and the path. When the
      search finds nothing, the empty path is returned at once and start and
      goal stay in the roadmap; otherwise the waypoints' poses, compressed if
      configured, form the path, and start and goal are removed. `elapsed` is
      the clock reading taken on the success branch. */
  function Plan(p: PolygonPlanner, ext: Externals, start: Endpoint, goal: Endpoint, elapsed: real): (r: (PolygonPlanner, Path))
    requires Valid(p) && Allocated(p, start) && Allocated(p, goal)
    requires ext.SearchStaysInGraph()
    ensures Valid(r.0)
    ensures r.1 == r.0.latestPath
    ensures r.0 == p.(heap := r.0.heap, graph := r.0.graph, latestPath := r.1, planningTime := r.0.planningTime)
    ensures p.heap <= r.0.heap
  {
    var q := Prepare(p, start, goal);
    var waypoints := ext.findPath(q.prm.graph, q.start, q.goal);
    if |waypoints| == 0 then
      (q.prm, q.prm.latestPath)
    else
      assert forall i :: 0 <= i < |waypoints| ==> waypoints[i] in q.prm.graph.nodes;
      var poses := PosesOf(q.prm.heap, waypoints);
      var pathPoses := if p.compressPath then ext.reduceWaypoints(p.world, poses) else poses;
      var path := Path(ext.fillYaws(pathPoses));
      var g := RemoveNode(RemoveNode(q.prm.graph, q.start), q.goal);
      (q.prm.(graph := g, latestPath := path, planningTime := elapsed), path)
  }
}

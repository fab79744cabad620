/** What one call of `plan` does to the roadmap and what it returns. */
module PrmQuery {
  import opened Poses
  import opened Motion
  import opened SearchGraph
  import opened Prm

  /** The arguments `plan` may be called with: a consistent planner, endpoints
      naming allocated nodes, and a search that returns nodes of its graph. */
  ghost predicate Ready(p: PolygonPlanner, ext: Externals, start: Endpoint, goal: Endpoint) {
    Valid(p) && Allocated(p, start) && Allocated(p, goal) && ext.SearchStaysInGraph()
  }

  /** The waypoints the search returns for a query. */
  function Waypoints(p: PolygonPlanner, ext: Externals, start: Endpoint, goal: Endpoint): seq<NodeId>
    requires Ready(p, ext, start, goal)
  {
    var q := Prepare(p, start, goal);
    ext.findPath(q.prm.graph, q.start, q.goal)
  }

  /** `poses` are the poses of the nodes `ids`, one for one, in order. */
  predicate PosesAlong(heap: seq<Pose>, ids: seq<NodeId>, poses: seq<Pose>) {
    && |poses| == |ids|
    && forall i :: 0 <= i < |ids| ==> ids[i] < |heap| && poses[i] == heap[ids[i]]
  }

  /** Start is added before goal and both are connected before the search,
      so when the world approves going from the goal pose to the start pose
      (or back), the search already sees the edge start–goal. */
  lemma StartGoalJoinedBeforeSearch(p: PolygonPlanner, start: Pose, goal: Pose)
    requires Valid(p)
    requires p.world.isConnectable(goal, start, p.maxConnectionDist) ||
             p.world.isConnectable(start, goal, p.maxConnectionDist)
    ensures var q := Prepare(p, AtPose(start), AtPose(goal));
      q.start != q.goal && Between(q.start, q.goal) in q.prm.graph.edges
  {
    var q1 := Insert(p, AtPose(start), AtPose(goal));
    assert Approves(q1.prm, q1.goal, q1.start) || Approves(q1.prm, q1.start, q1.goal);
  }

  /** On success with raw-pose endpoints, `plan` gives back the roadmap it
      was called with: the same nodes in the same order and the same edges.
      Every edge the query added touches start or goal, and removing those
      two nodes removes their edges. */
  lemma {:induction false} PlanRestoresRoadmap(p: PolygonPlanner, ext: Externals, start: Pose, goal: Pose, elapsed: real)
    requires Ready(p, ext, AtPose(start), AtPose(goal))
    requires |Waypoints(p, ext, AtPose(start), AtPose(goal))| > 0
    ensures Plan(p, ext, AtPose(start), AtPose(goal), elapsed).0.graph == p.graph
  {
    var q1 := Insert(p, AtPose(start), AtPose(goal));
    var q := ConnectQuery(q1);
    assert forall e :: e in p.graph.edges ==> e.lo in p.graph.nodes && e.hi in p.graph.nodes;
    RemoveAppendedPair(p.graph, q.prm.graph, q.start, q.goal);
  }

  /** When the search finds nothing, `plan` returns the empty path and leaves
      the planning time at zero, and it returns before removing start and
      goal: both stay in the roadmap with every edge the query added. With
      raw-pose endpoints the roadmap has grown by exactly two nodes. */
  lemma PlanFailureKeepsQueryNodes(p: PolygonPlanner, ext: Externals, start: Endpoint, goal: Endpoint, elapsed: real)
    requires Ready(p, ext, start, goal)
    requires |Waypoints(p, ext, start, goal)| == 0
    ensures var (r, path) := Plan(p, ext, start, goal, elapsed);
      var q := Prepare(p, start, goal);
      && path == EmptyPath
      && r.latestPath == EmptyPath
      && r.planningTime == 0.0
      && r.graph == q.prm.graph
      && q.start in r.graph.nodes
      && q.goal in r.graph.nodes
      && p.graph.edges <= r.graph.edges
      && (start.AtPose? && goal.AtPose? ==> r.graph.nodes == p.graph.nodes + [q.start, q.goal])
  {
  }

  /** On success `plan` returns the poses of the waypoints the search found,
      in order, passed through the compressor when `compress_path` is set,
      with headings filled in; the path is also the latest path and the
      planning time is the clock reading. */
  lemma PlanReturnsWaypointPoses(p: PolygonPlanner, ext: Externals, start: Endpoint, goal: Endpoint, elapsed: real, poses: seq<Pose>)
    requires Ready(p, ext, start, goal)
    requires |Waypoints(p, ext, start, goal)| > 0
    requires PosesAlong(Prepare(p, start, goal).prm.heap, Waypoints(p, ext, start, goal), poses)
    ensures var (r, path) := Plan(p, ext, start, goal, elapsed);
      && (!p.compressPath ==> path == Path(ext.fillYaws(poses)))
      && (p.compressPath ==> path == Path(ext.fillYaws(ext.reduceWaypoints(p.world, poses))))
      && r.latestPath == path
      && r.planningTime == elapsed
  {
    var q := Prepare(p, start, goal);
    var w := Waypoints(p, ext, start, goal);
    assert forall i :: 0 <= i < |w| ==> w[i] in q.prm.graph.nodes;
    assert PosesOf(q.prm.heap, w) == poses;
  }

  /** A node the caller passes as start, and that is in the roadmap, is not
      in it after a successful query: the removal that restores the roadmap
      for raw poses deletes a roadmap node here. */
  lemma PlanRemovesGivenStartNode(p: PolygonPlanner, ext: Externals, start: NodeId, goal: Endpoint, elapsed: real)
    requires Ready(p, ext, AtNode(start), goal)
    requires start in p.graph.nodes
    requires |Waypoints(p, ext, AtNode(start), goal)| > 0
    ensures var r := Plan(p, ext, AtNode(start), goal, elapsed).0;
      start !in r.graph.nodes && r.graph != p.graph
  {
  }
}

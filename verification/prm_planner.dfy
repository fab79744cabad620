/** The `PRMPlanner` factory: it validates the configuration, owns one
    polygon-based planner and forwards queries to it. */
module PrmPlanner {
  import opened Outcomes
  import opened Poses
  import opened Motion
  import opened Worlds
  import opened SearchGraph
  import Prm
  import PrmQuery

  /** The keyword arguments of the factory; `None` is an absent key. For
      `grid` only the truthiness of the given value matters. */
  datatype Options = Options(
    grid: Option<bool>,
    compressPath: Option<bool>,
    maxConnectionDist: Option<real>,
    maxNodes: Option<int>)

  /** `NotImplementedError` for a grid roadmap, and the `TypeError` Python
      raises when a key reaches a constructor that has no such parameter. */
  datatype ConfigError = GridNotSupported | UnexpectedKeyword(name: string)

  datatype Planner = Planner(
    impl: Prm.PolygonPlanner,
    latestPath: Path,
    planningTime: real,
    graphs: seq<Graph>)

  /** `PRMPlannerPolygon(compress_path, max_connection_dist, max_nodes, world)`:
      store the configuration, then `reset`. The new planner keeps the given
      configuration and world, holds a well-formed roadmap of at most
      `max_nodes` nodes, has no latest path, and a planning time of 0.0. */
  function NewPolygonPlanner(compressPath: bool, maxConnectionDist: real, maxNodes: int, world: World,
                             draws: nat -> Option<Pose>, elapsed: real): (r: Prm.PolygonPlanner)
    ensures Prm.Valid(r)
    ensures r.compressPath == compressPath && r.maxConnectionDist == maxConnectionDist
    ensures r.maxNodes == maxNodes && r.world == world
    ensures |r.graph.nodes| <= Prm.Limit(maxNodes)
    ensures r.latestPath == EmptyPath && r.planningTime == 0.0 && r.samplingTime == elapsed
  {
    var blank := Prm.PolygonPlanner(compressPath, maxConnectionDist, maxNodes, world, [], EmptyGraph, EmptyPath, 0.0, 0.0);
    Prm.ResetSamples(blank, draws, elapsed);
    Prm.Reset(blank, draws, elapsed).prm
  }

  /** `PRMPlanner(**planner_config)`. A truthy `grid` fails before any planner
      is built; a falsy `grid` passes that test but is then forwarded to the
      polygon planner's constructor, which has no such parameter. Otherwise
      the polygon planner is built with the given values or the defaults
      (no compression, connection distance 2.0, 50 nodes). */
  function Create(opts: Options, world: World, draws: nat -> Option<Pose>, elapsed: real): (r: Result<Planner, ConfigError>)
    ensures opts.grid == Some(true) <==> r == Failure(GridNotSupported)
    ensures opts.grid == Some(false) <==> r == Failure(UnexpectedKeyword("grid"))
    ensures r.Success? <==> opts.grid.None?
    ensures r.Success? ==>
      && Prm.Valid(r.value.impl)
      && r.value.impl.compressPath == opts.compressPath.GetOr(false)
      && r.value.impl.maxConnectionDist == opts.maxConnectionDist.GetOr(2.0)
      && r.value.impl.maxNodes == opts.maxNodes.GetOr(50)
      && r.value.impl.world == world
      && |r.value.impl.graph.nodes| <= Prm.Limit(r.value.impl.maxNodes)
  {
    match opts.grid
    case Some(true) => Failure(GridNotSupported)
    case Some(false) => Failure(UnexpectedKeyword("grid"))
    case None =>
      var compress, dist, cap := opts.compressPath.GetOr(false), opts.maxConnectionDist.GetOr(2.0), opts.maxNodes.GetOr(50);
      Success(Planner(NewPolygonPlanner(compress, dist, cap, world, draws, elapsed), EmptyPath, 0.0, []))
  }

  /** `PRMPlanner.plan`: the path is exactly the polygon planner's answer, it
      becomes the latest path, the planning time is the factory's own clock
      reading `elapsed`, and the exposed graphs are the one roadmap graph
      that `get_graphs` returns. */
  function Plan(pl: Planner, ext: Prm.Externals, start: Prm.Endpoint, goal: Prm.Endpoint,
                implElapsed: real, elapsed: real): (r: (Planner, Path))
    requires PrmQuery.Ready(pl.impl, ext, start, goal)
    ensures var (impl, path) := Prm.Plan(pl.impl, ext, start, goal, implElapsed);
      && r.1 == path
      && r.0 == Planner(impl, path, elapsed, [impl.graph])
  {
    var (impl, path) := Prm.Plan(pl.impl, ext, start, goal, implElapsed);
    (Planner(impl, path, elapsed, [impl.graph]), path)
  }

  /** After a successful query between raw poses the factory exposes the
      roadmap it had before the query, unchanged. */
  lemma PlanExposesRestoredRoadmap(pl: Planner, ext: Prm.Externals, start: Pose, goal: Pose,
                                   implElapsed: real, elapsed: real)
    requires PrmQuery.Ready(pl.impl, ext, Prm.AtPose(start), Prm.AtPose(goal))
    requires |PrmQuery.Waypoints(pl.impl, ext, Prm.AtPose(start), Prm.AtPose(goal))| > 0
    ensures Plan(pl, ext, Prm.AtPose(start), Prm.AtPose(goal), implElapsed, elapsed).0.graphs == [pl.impl.graph]
  {
    PrmQuery.PlanRestoresRoadmap(pl.impl, ext, start, goal, implElapsed);
  }
}

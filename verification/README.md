# Probabilistic Roadmap planner of pyrobosim, in Dafny

This project models the polygon-based Probabilistic Roadmap (PRM) planner of
pyrobosim (`PRMPlannerPolygon`) and its factory `PRMPlanner`, and proves
properties of the model.

- **Building the roadmap (`reset`).** The planner draws up to `max_nodes`
  poses from the world's free-pose sampler. It stops at the first failed sample and wraps each
  successful sample in a new node. It then runs `connect_neighbors` for every
  node against the final node set.
- **Neighbour connection (`connect_neighbors`).** A node is joined to every
  other roadmap node that the world's `is_connectable` approves from that
  node's side.
- **Queries (`plan`).** Raw start and goal poses are wrapped as fresh nodes.
  Start is added, then goal; start is connected, then goal. The planner then
  searches. On success the waypoint poses become the path (compressed if
  `compress_path` is set) and start and goal are removed again. On failure
  the planner returns the empty path at once, so start and goal stay in the
  roadmap.
- **Factory (`PRMPlanner`).** A truthy `grid` option is refused. Other
  options go to the polygon planner, and queries are forwarded to it.

The planner is an immutable record, and each mutating Python method is a
function from the old record to the new one. Node objects live in a store
`heap: seq<Pose>`: a node's identity is its index there, and `Node(pose)`
appends a new entry. Two nodes at the same pose are therefore distinct. The
graph is a sequence of node identities plus a set of undirected edges. Each
edge is stored with its endpoints ordered, so adding an edge twice leaves one
edge.

Some parts are given to the model as parameters:

- Geometry is reached only through `World.isConnectable`.
- The free-pose sampler is `draws: nat -> Option<Pose>`, the answer to its
  k-th call.
- The graph search, the waypoint compressor and the heading fill are
  uninterpreted functions in `Prm.Externals`.
- Clock readings are `elapsed` parameters.

Files:

| file | contents |
|---|---|
| `outcomes.dfy` | `Option` and `Result` |
| `pose.dfy`, `motion.dfy`, `world.dfy` | poses, paths and the world oracle |
| `search_graph.dfy` | the roadmap graph: nodes, undirected edges, insertion and removal |
| `prm.dfy` | `PRMPlannerPolygon`: sampling, connection, `reset`, and the steps of `plan` |
| `prm_query.dfy` | properties of one `plan` call |
| `prm_planner.dfy` | the `PRMPlanner` factory |

Notes on what `prm.py` does:

- **Failed queries leave start and goal in the roadmap.** `plan` returns
  early on an empty search result (prm.py:107-108), so the removal of start
  and goal (prm.py:116-117) runs only on success.
  `PrmQuery.PlanFailureKeepsQueryNodes` states this.
- **Edges come from either direction.** `connect_neighbors` runs from both
  ends of every pair, so after `reset` an edge exists when `is_connectable`
  approves the pair in either order.
- **Planning time starts at the search.** `plan` reads the clock just before
  `find_path` (prm.py:104), after start and goal are inserted and connected.
- **No endpoint claim.** Whether a path starts and ends at the query poses
  depends on `find_path` and `reduce_waypoints_polygon`, which are not
  modelled, so no such property is claimed.

## Model

| member | source | states |
|---|---|---|
| Prm.Sample | pyrobosim/pyrobosim/navigation/prm.py:50-55 | the k-th call of `sample_configuration` (prm.py:120-127) is the sampler's answer `draws(k)`, and the sampling loop yields at most `max_nodes` poses; they are the sampler's answers, in call order. It stops early exactly when the call after the last success returned `None`. |
| Prm.SampleReadsOnlyItsCalls | pyrobosim/pyrobosim/navigation/prm.py:50-54 | sampling consults the sampler only up to and including the first failure; no call is made or retried after it |
| Prm.Populate | pyrobosim/pyrobosim/navigation/prm.py:55 | each sampled pose becomes a fresh node, in sampling order; the graph has no edges yet and is well formed |
| Prm.Link | pyrobosim/pyrobosim/navigation/prm.py:68-74 | scanning `others` from node `n` adds exactly the edges from `n` to every other scanned node the world approves from `n`'s side; nothing else changes |
| Prm.ConnectNeighbors | pyrobosim/pyrobosim/navigation/prm.py:61-74 | nodes are unchanged and no edge is removed. Every new edge is incident to `n`, is not a self-loop, and was approved from `n`'s side. Every approved neighbour is joined, and well-formedness is kept. |
| Prm.ConnectEach | pyrobosim/pyrobosim/navigation/prm.py:58-59 | connecting each pending node against the whole node set adds exactly the edges between a pending node and a node the world approves from the pending node's side |
| Prm.ConnectAllEdges | pyrobosim/pyrobosim/navigation/prm.py:58-74 | on an edgeless roadmap, connecting every node joins two distinct nodes exactly when the world approves them in at least one order |
| Prm.Reset | pyrobosim/pyrobosim/navigation/prm.py:40-59 | `reset` yields a well-formed roadmap. It keeps the configuration, clears the latest path and planning time, and records the sampling time. |
| Prm.ResetSamples | pyrobosim/pyrobosim/navigation/prm.py:50-56 | after `reset` there are at most `max_nodes` nodes: fresh nodes holding the successful samples in order. There are fewer exactly when a sample failed, and then the warning carries the count. |
| Prm.ResetEdges | pyrobosim/pyrobosim/navigation/prm.py:58-74 | after `reset` an edge {a, b} with a ≠ b exists exactly when `is_connectable(a.pose, b.pose, d)` or `is_connectable(b.pose, a.pose, d)` holds |
| Prm.ResetEdgesSymmetricWorld | pyrobosim/pyrobosim/navigation/prm.py:58-74 | with a world indifferent to argument order, an edge exists after `reset` exactly when the world approves the pair |
| Prm.Admit | pyrobosim/pyrobosim/navigation/prm.py:93-98 | a raw pose becomes a fresh node appended to the roadmap; a given node is added only if it is absent; no edge changes |
| Prm.Insert | pyrobosim/pyrobosim/navigation/prm.py:89-98 | `plan` clears the latest path and planning time, then adds start before goal. Raw poses get fresh nodes at the end, start's first. The node set grows by start and goal only, and edges are unchanged. |
| Prm.ConnectQuery | pyrobosim/pyrobosim/navigation/prm.py:100-101 | connecting start then goal only adds edges, each incident to start or goal and approved from that side. Start and goal are joined whenever the world approves them in either order. |
| Prm.Plan | pyrobosim/pyrobosim/navigation/prm.py:76-118 | `plan` keeps the roadmap well formed and the configuration unchanged; the returned path is the new latest path; the node store only grows |
| PrmQuery.StartGoalJoinedBeforeSearch | pyrobosim/pyrobosim/navigation/prm.py:93-105 | with raw poses, if `is_connectable(goal, start, d)` or `is_connectable(start, goal, d)` holds, the search sees the edge start–goal |
| PrmQuery.PlanRestoresRoadmap | pyrobosim/pyrobosim/navigation/prm.py:93-117 | with raw-pose endpoints and a non-empty search result, the roadmap after `plan` equals the roadmap before it: same nodes in the same order, same edges |
| PrmQuery.PlanFailureKeepsQueryNodes | pyrobosim/pyrobosim/navigation/prm.py:89-108 | on an empty search result `plan` returns the empty path with planning time 0.0. Start, goal and their edges stay in the roadmap; with raw poses it gains exactly those two nodes. |
| PrmQuery.PlanReturnsWaypointPoses | pyrobosim/pyrobosim/navigation/prm.py:110-115 | on success the path is built from the waypoints' poses, in order: used as they are without `compress_path`, passed through the compressor with it. The path is then heading-filled, and the planning time is the clock reading. |
| PrmQuery.PlanRemovesGivenStartNode | pyrobosim/pyrobosim/navigation/prm.py:93-117 | a roadmap node passed as start is deleted from the roadmap by a successful query, so the roadmap is not restored in that case |
| SearchGraph.AddNode | pyrobosim/pyrobosim/navigation/prm.py:95-98 | adding a present node changes nothing; a new node is appended; edges are untouched; well-formedness is kept |
| SearchGraph.AddEdge | pyrobosim/pyrobosim/navigation/prm.py:74 | under the assumed undirected `SearchGraph` interface, `add_edge(node, other)` leaves the nodes unchanged and adds exactly the undirected edge {node, other}, found in either direction; the graph stays well formed when both ends are nodes |
| SearchGraph.AddEdgeIdempotent | pyrobosim/pyrobosim/navigation/prm.py:74 | under the assumed `SearchGraph` interface, asking for an existing edge again, in either direction, adds nothing: no parallel edges |
| SearchGraph.RemoveNode | pyrobosim/pyrobosim/navigation/prm.py:116-117 | removal drops the node and exactly the edges incident to it, keeping well-formedness |
| SearchGraph.AddThenRemove | pyrobosim/pyrobosim/navigation/prm.py:95-116 | removing a freshly added node with no edges gives back the graph exactly |
| SearchGraph.RemoveAppendedPair | pyrobosim/pyrobosim/navigation/prm.py:116-117 | removing two appended nodes, when every added edge touches one of them, gives back the original graph |
| PrmPlanner.NewPolygonPlanner | pyrobosim/pyrobosim/navigation/prm.py:17-38 | the constructor stores `compress_path`, `max_connection_dist`, `max_nodes` and `world` as given and then resets: the new planner has a well-formed roadmap of at most `max_nodes` nodes, an empty latest path and planning time 0.0 |
| PrmPlanner.Create | pyrobosim/pyrobosim/navigation/prm.py:142-153 | a truthy `grid` fails with the not-implemented error and builds no planner. A falsy `grid` fails as an unexpected keyword. Otherwise a well-formed planner is built with the given options or the defaults (False, 2.0, 50), holding at most `max_nodes` nodes. |
| PrmPlanner.Plan | pyrobosim/pyrobosim/navigation/prm.py:155-170 | the factory returns exactly the polygon planner's path. It keeps that path as its latest path and its own clock reading as planning time, and exposes the single roadmap graph, the list `get_graphs` returns (prm.py:129-136). |
| PrmPlanner.PlanExposesRestoredRoadmap | pyrobosim/pyrobosim/navigation/prm.py:129-170 | after a successful raw-pose query the factory exposes the roadmap it held before the query |

## Left out

- `world/room.py` is not modelled. It covers polygon inflation, intersection
  tests and drawing, which the planner reaches only through `is_connectable`
  and the sampler.
- **Timing.** `time.time()` is replaced by `elapsed` parameters. Clock
  readings are free parameters; the only fixed timing values are the resets
  to 0.0 on the failure path and in `reset`.
- **The underflow warning.** `warnings.warn` is not emitted. Its count is
  returned in `Rebuilt.underflow` instead.
- **Search internals.** `SearchGraph.find_path` is uninterpreted. The model
  makes no claim about path optimality, and the planner's precondition
  `SearchStaysInGraph` assumes the search returns nodes of the graph it
  searched.
- **Compressor internals.** `reduce_waypoints_polygon` is uninterpreted, so
  the model makes no claim that it keeps the first and last waypoint or
  shortens the path.
- PrmQuery.PlanReturnsWaypointPoses: states the path's poses as `fill_yaws`
  applied to the waypoint poses, not as those poses themselves, because the
  heading fill is uninterpreted.
- Prm.Plan: requires that `find_path` return nodes of the graph it searched,
  which is the search's own contract and is not checked here.
- **Heading fill.** `Path.fill_yaws` is treated as a pure function of the pose
  sequence. Its trigonometry is left out. So is any effect of it on the pose
  objects that the path shares with the roadmap nodes, because
  `utils/motion.py` is not part of this model.
- `SearchGraph` internals (`utils/search_graph.py`) are not part of this
  model. The graph follows the interface the planner uses:
  - adding a present node does nothing;
  - `add_edge` is undirected, and asking for a present edge in either order
    adds nothing;
  - removing a node detaches its edges;
  - removing an absent node (only possible when start and goal are the same
    given node) does nothing;
  - iteration follows insertion order.
  Node equality is identity. The `parent` field, colours and edge weights are
  left out.
- **Falsy samples.** A sample counts as failed only when it is `None`. A
  `Pose` object is assumed to be truthy.
- **Missing world.** The default `world=None` is not modelled. With it, the
  first oracle call raises `AttributeError`.
- **Other options.** Keys other than `grid`, `compress_path`,
  `max_connection_dist`, `max_nodes` and `world` are not modelled (`world` is
  the `world` parameter of `PrmPlanner.Create`). Each would raise
  `TypeError` in the polygon planner's constructor, just as a falsy `grid`
  does.
- **Base class.** `planner_base.py` is not part of this model. The factory
  starts with an empty latest path, zero planning time and no graphs.
- Pose arithmetic and distances are not modelled. Poses are carried but never
  inspected.

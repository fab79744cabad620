/** Paths produced by a planner. */
module Motion {
  import opened Poses

  /** An ordered sequence of poses; the empty path means "no path found". */
  datatype Path = Path(poses: seq<Pose>)

  const EmptyPath: Path := Path([])
}

/** The geometric world, reached only through its connectivity oracle. */
module Worlds {
  import opened Poses

  /** `isConnectable(a, b, d)` answers whether the straight segment from `a`
      to `b` is no longer than `d` and collision-free. It is not assumed to be
      symmetric in `a` and `b`. */
  datatype World = World(isConnectable: (Pose, Pose, real) -> bool)
}

/** Robot poses. The planner never inspects a pose: distances, collision and
    headings all live in collaborators, so the fields are carried, not used. */
module Poses {

  datatype Pose = Pose(x: real, y: real, yaw: real)
}

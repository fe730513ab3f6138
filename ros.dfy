/** The message values the cube list consumes: a ROS visualization marker and
    its parts. Floating-point components are kept as opaque reals; nothing in
    this model computes with them. */
module Ros {

  datatype Vector3 = Vector3(x: real, y: real, z: real)

  datatype Quaternion = Quaternion(x: real, y: real, z: real, w: real)

  datatype Pose = Pose(position: Vector3, orientation: Quaternion)

  datatype ColorRGBA = ColorRGBA(r: real, g: real, b: real, a: real)

  /** One marker message. `points` and `colors` are the per-instance arrays of
      a CUBE_LIST marker; `color` is the base colour. */
  datatype Marker = Marker(
    ns: string,
    id: int,
    kind: int,
    action: int,
    pose: Pose,
    scale: Vector3,
    color: ColorRGBA,
    points: seq<Vector3>,
    colors: seq<ColorRGBA>
  )
}

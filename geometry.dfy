/**
 * The geometric and device value types the core consumes. They belong to a
 * geometry library that is not part of this model: only the fields the core
 * reads are kept, and every computation on them (rotation vectors, unit
 * scaling, rounding, text rendering) is a parameter of the functions that need it.
 */
module Geometry {

  datatype Vector = Vector(x: real, y: real, z: real)

  /** An axis-angle rotation; `angle` is in degrees. */
  datatype Rotation = Rotation(axis: Vector, angle: real)

  /** The six joint angles of a 6-axis arm, in degrees. */
  datatype Joints = Joints(j1: real, j2: real, j3: real, j4: real, j5: real, j6: real)

  /** A tool: its name, its tool-centre-point offset and the flag the
      Attach action copies onto itself. */
  datatype Tool = Tool(name: string, tcpPosition: Vector, tcpOrientation: Rotation, translationFirst: bool)

  /** Joint-space versus Cartesian-space interpolation. */
  datatype MotionType = Linear | Joint

  function MotionTypeName(m: MotionType): string {
    match m
    case Linear => "Linear"
    case Joint => "Joint"
  }

  /** Enumerations declared outside the core; the core only ever prints
      their member name, so they are kept as that name. */
  datatype ReferenceCS = ReferenceCS(name: string)
  datatype RobotPartType = RobotPartType(name: string)
}

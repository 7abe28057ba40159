/**
 * The parts of a game object's transform and bounding box that the key
 * reads and writes. Floating-point matrices are replaced by their
 * observable ingredients: a translation, an optional parent and the list
 * of rotations composed since the last reset.
 */
module Geometry {
  import opened Wrappers

  datatype Vec3 = Vec3(x: real, y: real, z: real)

  /** A homogeneous corner point of a bounding box. */
  datatype Vertex = Vertex(x: real, y: real, z: real, w: real)

  /** A rotation composed into a transform: a quarter turn about the x axis, or any other one. */
  datatype Rotation = QuarterTurnX | OtherRotation(tag: nat)

  /** A stable handle naming another transform in the scene hierarchy. */
  type Handle = nat

  datatype Transform = Transform(translation: Vec3, parent: Option<Handle>, rotations: seq<Rotation>)

  /** A bounding box: its local corner points, and whether its own transform hangs below a parent. */
  datatype Box = Box(vertices: seq<Vertex>, attached: bool)

  /** The transform a game object starts with: at the origin, unrotated, without a parent. */
  const Identity: Transform := Transform(Vec3(0.0, 0.0, 0.0), None, [])

  /** Adds `delta` to the local translation. */
  function Translate(t: Transform, delta: Vec3): Transform {
    t.(translation := Vec3(t.translation.x + delta.x, t.translation.y + delta.y, t.translation.z + delta.z))
  }

  /** Detaches the transform from its parent, keeping its local values. */
  function ClearParent(t: Transform): Transform {
    t.(parent := None)
  }

  /** Discards the accumulated translation and rotation and places the transform at `p`. */
  function ResetAndSetTranslation(t: Transform, p: Vec3): Transform {
    Transform(p, t.parent, [])
  }

  /** Composes rotation `r` into the transform's orientation. */
  function Rotate(t: Transform, r: Rotation): Transform {
    t.(rotations := t.rotations + [r])
  }

  function X(t: Transform): real { t.translation.x }

  function Y(t: Transform): real { t.translation.y }

  /** A bounding box rebuilt from previously captured corner points, attached to its owner's transform. */
  function InitBoundingBox(vertices: seq<Vertex>): Box {
    Box(vertices, true)
  }

  /** Detaches a bounding box's transform from its parent. */
  function ClearBoxParent(b: Box): Box {
    b.(attached := false)
  }
}

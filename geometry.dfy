/**
 * The geometric values SceneKit nodes carry, over the reals: vectors, view
 * points and axis-aligned bounding boxes. Float rounding is not modelled.
 */
module Geometry {

  /** A 3-D vector (SCNVector3 / simd_float3). */
  datatype Vec3 = Vec3(x: real, y: real, z: real)

  /** A point or a translation in view coordinates (CGPoint). */
  datatype Point = Point(x: real, y: real)

  /** An axis-aligned box in a node's own coordinates (SCNNode.boundingBox). */
  datatype BoundingBox = BoundingBox(min: Vec3, max: Vec3)

  const ORIGIN := Vec3(0.0, 0.0, 0.0)
  const UNIT_SCALE := Vec3(1.0, 1.0, 1.0)
  const ZERO_POINT := Point(0.0, 0.0)

  /** The midpoint of [lo, hi], written as the source writes it: lo + (hi - lo) / 2. */
  function Mid(lo: real, hi: real): (m: real)
    ensures m - lo == hi - m
  {
    lo + (hi - lo) / 2.0
  }

  /** The length of [lo, hi]. */
  function Extent(lo: real, hi: real): real {
    hi - lo
  }

  /** Every component of `v` multiplied by `k` (simd_float3 * Float). */
  function Scaled(v: Vec3, k: real): Vec3 {
    Vec3(v.x * k, v.y * k, v.z * k)
  }

  /** `p` moved by `d` in view coordinates. */
  function Translated(p: Point, d: Point): Point {
    Point(p.x + d.x, p.y + d.y)
  }

  /** The centre of a box. */
  function Centre(b: BoundingBox): Vec3 {
    Vec3(Mid(b.min.x, b.max.x), Mid(b.min.y, b.max.y), Mid(b.min.z, b.max.z))
  }

  /** The face of `b` at its lowest y: the part that rests on a floor. */
  function BottomFace(b: BoundingBox): BoundingBox {
    BoundingBox(b.min, Vec3(b.max.x, b.min.y, b.max.z))
  }

  /** The face of `b` at its lowest z: the part that rests against a wall. */
  function BackFace(b: BoundingBox): BoundingBox {
    BoundingBox(b.min, Vec3(b.max.x, b.max.y, b.min.z))
  }
}

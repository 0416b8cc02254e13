/** The room interior of the gallery as an axis-aligned box, and the per-axis
    clamp the bounded orbit controls apply to a point every render frame. */
module Room {

  /** A point of world space: a camera position or an orbit target. */
  datatype Point = Point(x: real, y: real, z: real)

  /** The `bounds` object: limits on x, z and (vertically) y. */
  datatype Box = Box(minX: real, maxX: real, minZ: real, maxZ: real, minY: real, maxY: real)

  /** The room is 20 by 20 with walls at +-10; the camera keeps half a unit
      away from the walls and stays between 0.5 and 5.5 in height. */
  const RoomBounds: Box := Box(-9.5, 9.5, -9.5, 9.5, 0.5, 5.5)

  /** Every axis has a lower limit strictly below its upper limit. */
  predicate WellFormed(b: Box)
  {
    b.minX < b.maxX && b.minZ < b.maxZ && b.minY < b.maxY
  }

  predicate InRange(v: real, lo: real, hi: real)
  {
    lo <= v <= hi
  }

  predicate InBox(p: Point, b: Box)
  {
    InRange(p.x, b.minX, b.maxX) && InRange(p.z, b.minZ, b.maxZ) && InRange(p.y, b.minY, b.maxY)
  }

  lemma RoomBoundsWellFormed()
    ensures WellFormed(RoomBounds)
    ensures RoomBounds.minX == -9.5 && RoomBounds.maxX == 9.5
    ensures RoomBounds.minZ == -9.5 && RoomBounds.maxZ == 9.5
    ensures RoomBounds.minY == 0.5 && RoomBounds.maxY == 5.5
  {
  }

  /** One coordinate after clamping, and whether either guard fired. */
  datatype Clamped<T> = Clamped(value: T, corrected: bool)

  /** The two guarded assignments applied to one coordinate, in source order:
      below `lo` it is set to `lo`; then, if the (possibly updated) value is
      above `hi`, it is set to `hi`. `corrected` records whether either fired. */
  function ClampAxis(v: real, lo: real, hi: real): (r: Clamped<real>)
    ensures lo <= hi ==> InRange(r.value, lo, hi)
    ensures lo <= hi && v < lo ==> r.value == lo
    ensures lo <= hi && hi < v ==> r.value == hi
    ensures InRange(v, lo, hi) ==> r.value == v && !r.corrected
    ensures lo <= hi ==> (r.corrected <==> !InRange(v, lo, hi))
    ensures lo <= hi ==> (r.corrected <==> r.value != v)
  {
    var low := if v < lo then lo else v;
    var high := if low > hi then hi else low;
    Clamped(high, v < lo || low > hi)
  }

  /** Without well-formed limits the guards do interact: when `hi < lo`
      every value is sent to `hi`, and one below `lo` is corrected twice. */
  lemma InvertedLimitsGiveUpper(v: real, lo: real, hi: real)
    requires hi < lo
    ensures ClampAxis(v, lo, hi).value == hi
  {
  }

  /** The six camera guards of the tick, axis by axis in source order
      (x, then z, then y), with the disjunction of all their flags. */
  function ClampPoint(p: Point, b: Box): (r: Clamped<Point>)
    ensures WellFormed(b) ==> InBox(r.value, b)
    ensures InBox(p, b) ==> r.value == p && !r.corrected
    ensures WellFormed(b) ==> (r.corrected <==> !InBox(p, b))
    ensures WellFormed(b) ==> (r.corrected <==> r.value != p)
  {
    var cx := ClampAxis(p.x, b.minX, b.maxX);
    var cz := ClampAxis(p.z, b.minZ, b.maxZ);
    var cy := ClampAxis(p.y, b.minY, b.maxY);
    Clamped(Point(cx.value, cy.value, cz.value), cx.corrected || cz.corrected || cy.corrected)
  }

  /** Each coordinate of the clamped point depends on the same coordinate of
      the input alone: changing one axis never changes the other two. */
  lemma AxesIndependent(p: Point, q: Point, b: Box)
    ensures p.x == q.x ==> ClampPoint(p, b).value.x == ClampPoint(q, b).value.x
    ensures p.y == q.y ==> ClampPoint(p, b).value.y == ClampPoint(q, b).value.y
    ensures p.z == q.z ==> ClampPoint(p, b).value.z == ClampPoint(q, b).value.z
  {
  }

  /** A coordinate out of range lands exactly on the limit it violated, and
      one in range is kept, whatever happens on the other axes. */
  lemma SnapsToViolatedLimit(p: Point, b: Box)
    requires WellFormed(b)
    ensures p.x < b.minX ==> ClampPoint(p, b).value.x == b.minX
    ensures p.x > b.maxX ==> ClampPoint(p, b).value.x == b.maxX
    ensures InRange(p.x, b.minX, b.maxX) ==> ClampPoint(p, b).value.x == p.x
    ensures p.z < b.minZ ==> ClampPoint(p, b).value.z == b.minZ
    ensures p.z > b.maxZ ==> ClampPoint(p, b).value.z == b.maxZ
    ensures InRange(p.z, b.minZ, b.maxZ) ==> ClampPoint(p, b).value.z == p.z
    ensures p.y < b.minY ==> ClampPoint(p, b).value.y == b.minY
    ensures p.y > b.maxY ==> ClampPoint(p, b).value.y == b.maxY
    ensures InRange(p.y, b.minY, b.maxY) ==> ClampPoint(p, b).value.y == p.y
  {
  }

  /** Clamping an already clamped point changes nothing and reports no correction. */
  lemma ClampPointIdempotent(p: Point, b: Box)
    requires WellFormed(b)
    ensures ClampPoint(ClampPoint(p, b).value, b) == Clamped(ClampPoint(p, b).value, false)
  {
  }
}

/** Axis-aligned boxes in the cargo bay and the collision test between them.
    Coordinates: x along the bay's length, y along its width, z along its height. */
module Geometry {

  datatype Point = Point(x: real, y: real, z: real)

  /** A box given by its minimum corner (x, y, z) and its extents
      l (length, along x), w (width, along y) and h (height, along z). */
  datatype Box = Box(x: real, y: real, z: real, l: real, w: real, h: real)

  /** Two boxes overlap unless they are separated on some axis; a box whose
      far face lies exactly on the other's near face is separated. */
  predicate BoxesOverlap(a: Box, b: Box)
  {
    !(a.x + a.l <= b.x || b.x + b.l <= a.x ||
      a.y + a.w <= b.y || b.y + b.w <= a.y ||
      a.z + a.h <= b.z || b.z + b.h <= a.z)
  }

  /** The boxes whose extents are all positive (the ones that enclose a volume). */
  predicate Solid(b: Box)
  {
    b.l > 0.0 && b.w > 0.0 && b.h > 0.0
  }

  /** p lies strictly inside b. */
  predicate Interior(p: Point, b: Box)
  {
    b.x < p.x < b.x + b.l && b.y < p.y < b.y + b.w && b.z < p.z < b.z + b.h
  }

  function Max(a: real, b: real): real { if a < b then b else a }
  function Min(a: real, b: real): real { if a < b then a else b }

  lemma OverlapSymmetric(a: Box, b: Box)
    ensures BoxesOverlap(a, b) == BoxesOverlap(b, a)
  {
  }

  /** Boxes that only share (part of) a face never overlap, on any of the six faces. */
  lemma FaceTouchingDoesNotOverlap(a: Box, b: Box)
    requires a.x + a.l == b.x || b.x + b.l == a.x ||
             a.y + a.w == b.y || b.y + b.w == a.y ||
             a.z + a.h == b.z || b.z + b.h == a.z
    ensures !BoxesOverlap(a, b)
  {
  }

  /** Midpoint of the overlap of the intervals (lo1, hi1) and (lo2, hi2). */
  function MidOfOverlap(lo1: real, hi1: real, lo2: real, hi2: real): real
  {
    (Max(lo1, lo2) + Min(hi1, hi2)) / 2.0
  }

  /** For boxes that enclose a volume, the collision test is exactly
      "some point lies strictly inside both boxes". */
  lemma OverlapIffCommonInteriorPoint(a: Box, b: Box)
    requires Solid(a) && Solid(b)
    ensures BoxesOverlap(a, b) <==> exists p: Point :: Interior(p, a) && Interior(p, b)
  {
    if BoxesOverlap(a, b) {
      var p := Point(MidOfOverlap(a.x, a.x + a.l, b.x, b.x + b.l),
                     MidOfOverlap(a.y, a.y + a.w, b.y, b.y + b.w),
                     MidOfOverlap(a.z, a.z + a.h, b.z, b.z + b.h));
      assert Interior(p, a) && Interior(p, b);
    }
  }

  /** Without positive extents the test is not about shared space: a box of
      negative length still "overlaps" a box it shares no point with. */
  lemma DegenerateBoxesOverlap()
    ensures var a := Box(0.0, 0.0, 0.0, -1.0, 1.0, 1.0);
            var b := Box(-2.0, 0.0, 0.0, 3.0, 1.0, 1.0);
            BoxesOverlap(a, b) && !exists p: Point :: Interior(p, a)
  {
  }
}

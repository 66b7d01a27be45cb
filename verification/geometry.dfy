/**
 Bounding boxes and the frame dimensions derived from them.

 A payload's bounding box is reduced to its lowest and highest corner
 points; `BboxToFrame` turns it into the width, height and length of a
 fuselage cross-section together with the point where that cross-section
 is placed: on the front face of the box (`Start`), on its rear face
 (`End`), or at the origin for any other placement request.
 */
module BoundingBox {

  datatype Point = Point(x: real, y: real, z: real)

  /** An axis-aligned box given by the minimum (`lo`) and maximum (`hi`) of its corners. */
  datatype BBox = BBox(lo: Point, hi: Point)

  /** Where along the box a frame is placed. */
  datatype Placement = Start | End | Elsewhere

  /** The parameters of one cross-section: its size and the position of its front-bottom edge. */
  datatype FrameParams = FrameParams(width: real, height: real, length: real, position: Point)

  function Abs(v: real): (r: real)
    ensures r >= 0.0
    ensures r == v || r == -v
  {
    if v < 0.0 then -v else v
  }

  /** Extent of the box along y (sideways). The extents are absolute differences, so they do
      not depend on which of the two corners is given as `lo`. */
  function Width(b: BBox): (w: real)
    ensures w >= 0.0
    ensures b.lo.y <= b.hi.y ==> w == b.hi.y - b.lo.y
  {
    Abs(b.hi.y - b.lo.y)
  }

  /** Extent of the box along z (upwards). */
  function Height(b: BBox): (h: real)
    ensures h >= 0.0
    ensures b.lo.z <= b.hi.z ==> h == b.hi.z - b.lo.z
  {
    Abs(b.hi.z - b.lo.z)
  }

  /** Extent of the box along x (nose to tail). */
  function Length(b: BBox): (l: real)
    ensures l >= 0.0
    ensures b.lo.x <= b.hi.x ==> l == b.hi.x - b.lo.x
  {
    Abs(b.hi.x - b.lo.x)
  }

  /** True when `lo` is below `hi` on every axis, as for the minimum and maximum corner. */
  predicate Ordered(b: BBox) {
    b.lo.x <= b.hi.x && b.lo.y <= b.hi.y && b.lo.z <= b.hi.z
  }

  /** `next` is strictly wider and strictly taller than `cur`. */
  predicate Outgrows(next: BBox, cur: BBox) {
    Width(cur) < Width(next) && Height(cur) < Height(next)
  }

  /** The frame dimensions of a box and its placement point. */
  function BboxToFrame(b: BBox, at: Placement): (f: FrameParams)
    ensures f.width >= 0.0 && f.height >= 0.0 && f.length >= 0.0
    ensures f.width == Width(b) && f.height == Height(b) && f.length == Length(b)
    ensures f.position.y - f.width / 2.0 == b.lo.y
    ensures f.position.z == b.lo.z
    ensures at == Start ==> f.position.x == b.lo.x
    ensures at == Elsewhere ==> f.position.x == 0.0
  {
    var width := Width(b);
    var height := Height(b);
    var length := Length(b);
    var x := match at
      case Start => b.lo.x
      case End => b.lo.x + length
      case Elsewhere => 0.0;
    FrameParams(width, height, length, Point(x, width / 2.0 + b.lo.y, b.lo.z))
  }

  /** The size of a frame does not depend on where it is placed, nor do its y and z. */
  lemma PlacementKeepsShape(b: BBox, p: Placement, q: Placement)
    ensures BboxToFrame(b, p).width == BboxToFrame(b, q).width
    ensures BboxToFrame(b, p).height == BboxToFrame(b, q).height
    ensures BboxToFrame(b, p).length == BboxToFrame(b, q).length
    ensures BboxToFrame(b, p).position.y == BboxToFrame(b, q).position.y
    ensures BboxToFrame(b, p).position.z == BboxToFrame(b, q).position.z
  {
  }

  /** An `End` frame sits one box length behind the `Start` frame of the same box. */
  lemma EndIsStartPlusLength(b: BBox)
    ensures BboxToFrame(b, End).position.x
         == BboxToFrame(b, Start).position.x + BboxToFrame(b, Start).length
  {
  }

  /** For a box given by its minimum and maximum corners the frame spans exactly the box:
      sideways from lo.y to hi.y, standing on lo.z, at the front face (Start) or the rear face (End). */
  lemma OrderedBoxFrame(b: BBox, at: Placement)
    requires Ordered(b)
    ensures BboxToFrame(b, at).position.y - BboxToFrame(b, at).width / 2.0 == b.lo.y
    ensures BboxToFrame(b, at).position.y + BboxToFrame(b, at).width / 2.0 == b.hi.y
    ensures BboxToFrame(b, at).height == b.hi.z - b.lo.z
    ensures at == Start ==> BboxToFrame(b, at).position.x == b.lo.x
    ensures at == End ==> BboxToFrame(b, at).position.x == b.hi.x
  {
  }
}

/** Planar value types shared by the tracker, the markers and the snapshot. */
module Geometry {

  /** A point in the plane (pixel or field coordinates). */
  datatype Point = Point(x: real, y: real)

  /** Four coordinates of one marker: its centre (x, y) and the midpoint
      (xTop, yTop) of its leading edge, which gives the heading. */
  datatype Box = Box(x: real, y: real, xTop: real, yTop: real)

}

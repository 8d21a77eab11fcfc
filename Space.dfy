/** The colour spaces a metric tensor can be anchored at, the colour points
    (three coordinates in some space), and the buffer allocation that the space
    objects provide. Colour conversion itself is not part of this model: points
    arrive already expressed in the space a constructor needs. */
module Space {

  /** The space tags the tensor constructors name; `Other` stands for any further
      space object a caller passes to the generic constructors. */
  datatype ColourSpace = XYZ | CIELAB | CIELUV | CIEDE00LCh | Other(name: string)

  /** One colour point: coordinates 0, 1 and 2 in the space it is expressed in
      (for CIEDE00LCh these are L, C and h, hue in radians). */
  datatype Point = Point(c0: real, c1: real, c2: real)

  /** `empty_matrix`: a freshly allocated N×3×3 buffer, one 3×3 slice per point.
      Its contents are unspecified: callers may rely only on its shape. */
  method EmptyMatrix(pts: seq<Point>) returns (g: array3<real>)
    ensures fresh(g)
    ensures g.Length0 == |pts| && g.Length1 == 3 && g.Length2 == 3
  {
    g := new real[|pts|, 3, 3];
  }
}

/** Plane geometry shared by the landmark-based detectors. Dafny has no square
    root, so Euclidean distance is a parameter: any non-negative function of two
    points that is zero from a point to itself. */
module Geometry {

  /** A landmark position in pixels. */
  datatype Point = Point(x: int, y: int)

  /** `scipy.spatial.distance.euclidean` on two points. */
  type Metric = (Point, Point) -> real

  ghost predicate IsMetric(dist: Metric)
  {
    && (forall p, q :: dist(p, q) >= 0.0)
    && (forall p :: dist(p, p) == 0.0)
  }

  /** `(v1 + v2) / (2 * h)`, the shape shared by the eye and the mouth aspect
      ratio: the mean of two vertical distances over one horizontal distance. */
  function AspectRatio(v1: real, v2: real, h: real): (r: real)
    requires h != 0.0
    ensures v1 >= 0.0 && v2 >= 0.0 && h > 0.0 ==> r >= 0.0
  {
    (v1 + v2) / (2.0 * h)
  }

  /** The ratio times twice the horizontal distance gives back the sum of the
      two vertical distances. */
  lemma AspectRatioSpec(v1: real, v2: real, h: real)
    requires h != 0.0
    ensures AspectRatio(v1, v2, h) * (2.0 * h) == v1 + v2
  {
  }
}

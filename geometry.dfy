/** Image-space geometry used by the curl evaluator: keypoints, distances and the joint angle. */
module Geometry {

  /** A detected body joint in image coordinates (pixels). Whatever else the
      pose estimator reports for a joint is never read by the evaluator. */
  datatype Keypoint = Keypoint(x: real, y: real)

  function Abs(v: real): (r: real)
    ensures r >= 0.0
    ensures r == v || r == -v
  {
    if v < 0.0 then -v else v
  }

  /** The square of the Euclidean distance between two keypoints. Comparing it
      with the square of a limit is the same as comparing the distance itself. */
  function SquaredDistance(p: Keypoint, q: Keypoint): (d: real)
    ensures d >= 0.0
  {
    (p.x - q.x) * (p.x - q.x) + (p.y - q.y) * (p.y - q.y)
  }

  /** A ray direction in degrees, as the two-argument arctangent gives it after
      conversion from radians. */
  predicate IsHeading(h: real)
  {
    -180.0 <= h <= 180.0
  }

  /** The interior angle at the elbow, in degrees, between the ray to the
      shoulder and the ray to the wrist, given the headings of those two rays:
      the absolute difference of the headings, folded into [0, 180]. */
  function CalculateAngle(shoulderHeading: real, wristHeading: real): (angle: real)
    requires IsHeading(shoulderHeading) && IsHeading(wristHeading)
    ensures 0.0 <= angle <= 180.0
    ensures angle <= Abs(wristHeading - shoulderHeading)
    ensures angle == Abs(wristHeading - shoulderHeading) || angle == 360.0 - Abs(wristHeading - shoulderHeading)
  {
    var d := Abs(wristHeading - shoulderHeading);
    if d <= 180.0 then d else 360.0 - d
  }

  /** The angle does not depend on which ray is measured from which. */
  lemma AngleSymmetric(h1: real, h2: real)
    requires IsHeading(h1) && IsHeading(h2)
    ensures CalculateAngle(h1, h2) == CalculateAngle(h2, h1)
  {
  }

  /** Rays pointing the same way, or exactly opposite ends of the arctangent's
      range, make a zero angle; and only those. */
  lemma ZeroAngle(h1: real, h2: real)
    requires IsHeading(h1) && IsHeading(h2)
    ensures CalculateAngle(h1, h2) == 0.0 <==> h1 == h2 || Abs(h1 - h2) == 360.0
  {
  }
}

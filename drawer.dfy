/** The geometry FaceView's drawer hands to the canvas, in coordinates
    relative to the face centre (the drawer translates the canvas to
    (centerX, centerY) first; y grows downwards). Every length is a fixed
    fraction of the face radius; only the mouth depends on happiness. */
module Drawer {
  import opened JavaMath

  const FaceRadiusToEyeRadiusRatio: real := 10.0
  const FaceRadiusToEyeOffsetRatio: real := 3.0
  const FaceRadiusToEyeSeparationRatio: real := 1.5
  const FaceRadiusToMouthWidthRatio: real := 1.0
  const FaceRadiusToMouthHeightRatio: real := 3.0
  const FaceRadiusToMouthOffsetRatio: real := 3.0

  datatype Point = Point(x: real, y: real)

  datatype Circle = Circle(center: Point, radius: real)

  datatype Eye = Left | Right

  /** A cubic Bezier curve: it starts at `start`, ends at `end`, and is pulled
      towards the two control points. */
  datatype Mouth = Mouth(start: Point, control1: Point, control2: Point, end: Point)

  /** Everything one frame draws: the face outline, two eyes and the mouth. */
  datatype Drawing = Drawing(face: Circle, leftEye: Circle, rightEye: Circle, mouth: Mouth)

  /** The outline: a circle of the face radius around the centre. */
  function FaceOval(faceRadius: real): Circle {
    Circle(Point(0.0, 0.0), faceRadius)
  }

  /** An eye sits a third of the radius above the centre and a third of the
      radius to its side (half the separation of radius / 1.5), with a tenth
      of the radius as its own radius. */
  function EyeCircle(faceRadius: real, eye: Eye): (c: Circle)
    ensures c.center.y == -faceRadius / 3.0
    ensures c.center.x == if eye == Left then -faceRadius / 3.0 else faceRadius / 3.0
    ensures c.radius == faceRadius / 10.0
  {
    var eyeRadius := faceRadius / FaceRadiusToEyeRadiusRatio;
    var eyeVerticalOffset := faceRadius / FaceRadiusToEyeOffsetRatio;
    var eyeHorizontalSeparation := faceRadius / FaceRadiusToEyeSeparationRatio;
    var eyeY := -eyeVerticalOffset;
    var eyeX := (if eye == Left then -1.0 else 1.0) * eyeHorizontalSeparation / 2.0;
    Circle(Point(eyeX, eyeY), eyeRadius)
  }

  /** How far happiness is from neutral, as a fraction of a full smile: -1 at
      or below 0, 0 at 50, 1 at or above 100, linear in between. */
  function SmileFraction(happiness: real): (f: real)
    ensures -1.0 <= f <= 1.0
    ensures 0.0 <= happiness <= 100.0 ==> f * 50.0 == happiness - 50.0
    ensures happiness >= 100.0 ==> f == 1.0
    ensures happiness <= 0.0 ==> f == -1.0
    ensures f > 0.0 <==> happiness > 50.0
    ensures f < 0.0 <==> happiness < 50.0
  {
    var fractionOfMaxSmile := (happiness - 50.0) / 50.0;
    Max(Min(fractionOfMaxSmile, 1.0), -1.0)
  }

  /** How far the mouth's control points are pushed down (a smile) or up (a
      frown) from its corners: never more than a third of the radius, whatever
      the happiness, with the sign of happiness - 50. */
  function SmileHeight(faceRadius: real, happiness: real): (s: real)
    ensures faceRadius >= 0.0 ==> -faceRadius / 3.0 <= s <= faceRadius / 3.0
    ensures 0.0 <= happiness <= 100.0 ==> s * 150.0 == (happiness - 50.0) * faceRadius
    ensures happiness == 50.0 ==> s == 0.0
    ensures happiness >= 100.0 ==> s == faceRadius / 3.0
    ensures happiness <= 0.0 ==> s == -faceRadius / 3.0
    ensures faceRadius > 0.0 ==> (s > 0.0 <==> happiness > 50.0) && (s < 0.0 <==> happiness < 50.0)
    ensures faceRadius == 0.0 ==> s == 0.0
  {
    var mouthHeight := faceRadius / FaceRadiusToMouthHeightRatio;
    var fraction := SmileFraction(happiness);
    if faceRadius >= 0.0 then
      ProductNonNegative(1.0 - fraction, mouthHeight);
      ProductNonNegative(1.0 + fraction, mouthHeight);
      fraction * mouthHeight
    else fraction * mouthHeight
  }

  /** Sign rule for products, stated once for the bounds above. */
  lemma ProductNonNegative(a: real, b: real)
    requires a >= 0.0 && b >= 0.0
    ensures a * b >= 0.0
  {
  }

  /** A happier face never smiles less. */
  lemma SmileHeightMonotone(faceRadius: real, h1: real, h2: real)
    requires faceRadius >= 0.0 && h1 <= h2
    ensures SmileHeight(faceRadius, h1) <= SmileHeight(faceRadius, h2)
  {
    var f1, f2 := SmileFraction(h1), SmileFraction(h2);
    assert f1 <= f2;
    ProductNonNegative(f2 - f1, faceRadius / 3.0);
  }

  /** The mouth: corners half the radius to either side and a third of the
      radius below the centre, control points a third of the radius to either
      side and the smile height below the corners. It is mirror-symmetric about
      the vertical axis through the centre. */
  function MouthCurve(faceRadius: real, happiness: real): (m: Mouth)
    ensures m.start.x == -m.end.x && m.start.y == m.end.y
    ensures m.control1.x == -m.control2.x && m.control1.y == m.control2.y
    ensures m.end == Point(faceRadius / 2.0, faceRadius / 3.0)
    ensures m.control2.x == faceRadius / 3.0
    ensures m.control1.y == m.start.y + SmileHeight(faceRadius, happiness)
  {
    var mouthWidth := faceRadius / FaceRadiusToMouthWidthRatio;
    var mouthVerticalOffset := faceRadius / FaceRadiusToMouthOffsetRatio;
    var smileHeight := SmileHeight(faceRadius, happiness);
    Mouth(Point(-mouthWidth / 2.0, mouthVerticalOffset),
          Point(-mouthWidth / 3.0, mouthVerticalOffset + smileHeight),
          Point(mouthWidth / 3.0, mouthVerticalOffset + smileHeight),
          Point(mouthWidth / 2.0, mouthVerticalOffset))
  }

  /** One frame: the outline, the left eye, the right eye and the mouth. */
  function FaceDrawing(faceRadius: real, happiness: real): (d: Drawing)
    ensures d.face.center == Point(0.0, 0.0) && d.face.radius == faceRadius
    ensures d.leftEye.center == Point(-d.rightEye.center.x, d.rightEye.center.y)
    ensures d.leftEye.radius == d.rightEye.radius
    ensures d.leftEye == EyeCircle(faceRadius, Left) && d.rightEye == EyeCircle(faceRadius, Right)
    ensures d.mouth == MouthCurve(faceRadius, happiness)
  {
    Drawing(FaceOval(faceRadius), EyeCircle(faceRadius, Left), EyeCircle(faceRadius, Right),
            MouthCurve(faceRadius, happiness))
  }

  /** `p` lies inside or on the circle of radius `r` around the centre. */
  predicate WithinRadius(p: Point, r: real) {
    p.x * p.x + p.y * p.y <= r * r
  }

  /** The eyes lie wholly inside the outline and do not touch each other. */
  lemma EyesInsideFace(faceRadius: real)
    requires faceRadius >= 0.0
    ensures forall eye: Eye :: WithinRadius(EyeCircle(faceRadius, eye).center, faceRadius - faceRadius / 10.0)
    ensures EyeCircle(faceRadius, Left).center.x + faceRadius / 10.0
              <= EyeCircle(faceRadius, Right).center.x - faceRadius / 10.0
  {
  }

  /** The clamp on the smile keeps the mouth inside the outline for any
      happiness, even one outside [0, 100]: all four points of the curve's
      control polygon, and so the whole Bezier curve, lie within the face. */
  lemma MouthInsideFace(faceRadius: real, happiness: real)
    requires faceRadius >= 0.0
    ensures WithinRadius(MouthCurve(faceRadius, happiness).start, faceRadius)
    ensures WithinRadius(MouthCurve(faceRadius, happiness).end, faceRadius)
    ensures WithinRadius(MouthCurve(faceRadius, happiness).control1, faceRadius)
    ensures WithinRadius(MouthCurve(faceRadius, happiness).control2, faceRadius)
  {
    var y := MouthCurve(faceRadius, happiness).control1.y;
    assert 0.0 <= y <= 2.0 * faceRadius / 3.0;
    ProductNonNegative(y, 2.0 * faceRadius / 3.0 - y);
  }
}

/** What FaceView.onSizeChanged derives from the view's new size: the face
    radius and the centre the face is drawn around. Sizes are non-negative
    pixel counts, so the integer division here truncates just as Java's does. */
module Layout {
  import opened JavaMath

  /** The face fills this fraction of half the smaller side. */
  const Scale: real := 0.9

  /** `Math.min(w, h) / 2 * SCALE`: the half is taken in integers first, so the
      radius is 0.9 times a whole number of pixels, and it falls short of
      0.45 * min(w, h) by 0.45 exactly when the smaller side is odd. */
  function FaceRadiusFor(w: int, h: int): (r: real)
    requires w >= 0 && h >= 0
    ensures r >= 0.0
    ensures (r / Scale).Floor as real == r / Scale
    ensures Scale * (MinInt(w, h) as real) / 2.0 - Scale / 2.0 <= r <= Scale * (MinInt(w, h) as real) / 2.0
    ensures r == Scale * (MinInt(w, h) as real) / 2.0 <==> MinInt(w, h) % 2 == 0
  {
    ((MinInt(w, h) / 2) as real) * Scale
  }

  /** `size / 2` in integers, widened to a float: the whole pixel at or just
      below the middle. */
  function CenterFor(size: int): (c: real)
    requires size >= 0
    ensures c.Floor as real == c
    ensures 2.0 * c <= size as real < 2.0 * c + 2.0
  {
    (size / 2) as real
  }
}

/** The part of drawing that the model keeps: the alpha of each colour
    overlay, computed from where the thumb lies between its two rest
    centres, truncated to an integer and clamped to the range a colour
    channel can hold. */
module Render {

  /** `alpha < 0 ? 0 : (alpha > 255 ? 255 : alpha)`. */
  function ClampAlpha(alpha: int): (r: int)
    ensures 0 <= r <= 255
    ensures 0 <= alpha <= 255 ==> r == alpha
    ensures alpha < 0 ==> r == 0
    ensures alpha > 255 ==> r == 255
  {
    if alpha < 0 then 0 else if alpha > 255 then 255 else alpha
  }

  /** Java's `(int)` cast of a finite value: truncation toward zero. */
  function TruncToInt(v: real): (r: int)
    ensures v >= 0.0 ==> r as real <= v < r as real + 1.0
    ensures v < 0.0 ==> r as real - 1.0 < v <= r as real
  {
    if v >= 0.0 then v.Floor else -((-v).Floor)
  }

  /** The raw alpha of the "on" overlay: how far the thumb's centre has
      travelled from the "off" rest centre towards the "on" one, times 255. */
  function OnAlpha(thumbCenterX: real, offCenterX: real, onCenterX: real): int
    requires onCenterX != offCenterX
  {
    TruncToInt((thumbCenterX - offCenterX) / (onCenterX - offCenterX) * 255.0)
  }

  /** The raw alpha of the "off" overlay: the complementary fraction. */
  function OffAlpha(thumbCenterX: real, offCenterX: real, onCenterX: real): int
    requires onCenterX != offCenterX
  {
    TruncToInt((onCenterX - thumbCenterX) / (onCenterX - offCenterX) * 255.0)
  }

  /** Truncating a value and its complement to 255 loses at most one. */
  lemma TruncComplement(q: real)
    ensures 254 <= TruncToInt(q) + TruncToInt(255.0 - q) <= 255
  {
    var a, b := TruncToInt(q), TruncToInt(255.0 - q);
    if q < 0.0 {
      assert a as real - 1.0 < q && 255.0 - q < b as real + 1.0;
    } else if q > 255.0 {
      assert q < a as real + 1.0 && b as real - 1.0 < 255.0 - q;
    }
  }

  lemma ComplementFraction(a: real, d: real)
    requires d != 0.0
    ensures (d - a) / d == 1.0 - a / d
  {
    assert (d - a) / d == d / d - a / d;
  }

  /** The two raw alphas, wherever the thumb is, add up to 255, or to 254
      when both fractions were truncated. */
  lemma RawAlphasComplement(thumbCenterX: real, offCenterX: real, onCenterX: real)
    requires onCenterX != offCenterX
    ensures 254 <= OnAlpha(thumbCenterX, offCenterX, onCenterX) + OffAlpha(thumbCenterX, offCenterX, onCenterX) <= 255
  {
    var d := onCenterX - offCenterX;
    var f := (thumbCenterX - offCenterX) / d;
    assert onCenterX - thumbCenterX == d - (thumbCenterX - offCenterX);
    ComplementFraction(thumbCenterX - offCenterX, d);
    assert (1.0 - f) * 255.0 == 255.0 - f * 255.0;
    TruncComplement(f * 255.0);
  }

  /** Clamping keeps the complementary sum of the two overlays' alphas, so
      the "on" and "off" colours together are always (nearly) opaque. */
  lemma ClampComplement(thumbCenterX: real, offCenterX: real, onCenterX: real)
    requires onCenterX != offCenterX
    ensures var on, off := OnAlpha(thumbCenterX, offCenterX, onCenterX), OffAlpha(thumbCenterX, offCenterX, onCenterX);
            && 254 <= ClampAlpha(on) + ClampAlpha(off) <= 255
            && (on + off == 255 ==> ClampAlpha(on) + ClampAlpha(off) == 255)
  {
    RawAlphasComplement(thumbCenterX, offCenterX, onCenterX);
  }
}

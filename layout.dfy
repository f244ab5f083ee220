/** Layout arithmetic of the switch: measure-spec resolution, rectangles and
    the two thumb rest positions. Every quantity is an integer number of
    pixels; Java's `>>> 1` and `<< 1` on the non-negative sizes used here are
    written as `/ 2` and `2 *`. */
module Layout {

  /** The mode of an Android measure spec, already separated from its size. */
  datatype MeasureMode = Exactly | AtMost | Unspecified

  datatype MeasureSpec = MeasureSpec(mode: MeasureMode, size: nat)

  function Min(a: int, b: int): int { if a <= b then a else b }

  function Max(a: int, b: int): int { if a >= b then a else b }

  /** The size a view takes along one axis: the exact size when the parent
      imposes one, the desired size capped by the parent's bound under
      AT_MOST, and the desired size otherwise. */
  function ResolveSize(spec: MeasureSpec, desired: nat): (r: nat)
    ensures spec.mode == Exactly ==> r == spec.size
    ensures spec.mode == AtMost ==> r <= spec.size && r <= desired && (r == spec.size || r == desired)
    ensures spec.mode == Unspecified ==> r == desired
  {
    match spec.mode
    case Exactly => spec.size
    case AtMost => Min(desired, spec.size)
    case Unspecified => desired
  }

  /** An axis-aligned rectangle, as android.graphics.RectF(left, top, right, bottom). */
  datatype Rect = Rect(left: int, top: int, right: int, bottom: int) {

    function CenterX(): real {
      (left + right) as real / 2.0
    }

    /** The rectangle shrunk by `d` on every side. */
    function Inset(d: int): Rect {
      Rect(left + d, top + d, right - d, bottom - d)
    }
  }

  /** A thumb radius the layout can be given: the widget computes it as
      `(int)(min(width, height) / 2.88f)`, which never exceeds half the
      smaller side. */
  predicate ThumbFits(width: nat, height: nat, thumbRadii: int) {
    0 <= thumbRadii <= Min(width, height) / 2
  }

  /** Thumb bounds at the "on" rest position: flush with the right padding. */
  function OnRest(width: int, height: int, padding: int, thumbRadii: int): Rect {
    Rect(width - padding - thumbRadii, padding, width - padding, height - padding)
  }

  /** Thumb bounds at the "off" rest position: flush with the left padding. */
  function OffRest(height: int, padding: int, thumbRadii: int): Rect {
    Rect(padding, padding, padding + thumbRadii, height - padding)
  }

  function RestBounds(width: int, height: int, padding: int, thumbRadii: int, on: bool): Rect {
    if on then OnRest(width, height, padding, thumbRadii) else OffRest(height, padding, thumbRadii)
  }
}

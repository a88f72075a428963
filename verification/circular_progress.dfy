/** The ring gauge used by the battery and weight cards: the percentage it
    fills and the fixed geometry of its three sizes. */
module CircularProgress {
  import opened JsNumber

  /** The colour names the gauge accepts. */
  datatype Color = Primary | Secondary | Accent | Error

  datatype Size = Sm | Md | Lg

  /** `Math.min(100, Math.max(0, value / max * 100))`. The result is NaN only
      for 0 / 0; otherwise it is a finite value in [0, 100], and for a positive
      `max` it is the exact ratio clipped at both ends. */
  function Percentage(value: real, max: real): (r: Num)
    ensures r.NaN? <==> value == 0.0 && max == 0.0
    ensures !r.NaN? ==> r.Finite? && 0.0 <= r.v <= 100.0
    ensures max > 0.0 && value >= max ==> r == Finite(100.0)
    ensures max > 0.0 && value <= 0.0 ==> r == Finite(0.0)
    ensures max > 0.0 && 0.0 <= value <= max ==> r == Finite(value / max * 100.0)
  {
    RatioBounds(value, max);
    Min(Max(Scale(Div(value, max), 100.0), 0.0), 100.0)
  }

  /** For a positive `max`, the ratio scaled to a percentage compares with 0
      and 100 exactly as `value` compares with 0 and `max`. */
  lemma RatioBounds(value: real, max: real)
    ensures max > 0.0 && value >= max ==> value / max * 100.0 >= 100.0
    ensures max > 0.0 && value <= 0.0 ==> value / max * 100.0 <= 0.0
    ensures max > 0.0 && 0.0 <= value <= max ==> 0.0 <= value / max * 100.0 <= 100.0
  {
    if max <= 0.0 {
      return;
    }
    var q := value / max;
    assert q * max == value;
    if value >= max {
      assert q >= 1.0;
    }
    if value <= 0.0 {
      assert q <= 0.0;
    }
    if 0.0 <= value <= max {
      assert 0.0 <= q <= 1.0;
    }
  }

  /** The stroke grows with the size: 4 for small, 6 for medium, 8 for large. */
  function StrokeWidth(size: Size): (w: int)
    ensures size == Sm <==> w == 4
    ensures size == Md <==> w == 6
    ensures size == Lg <==> w == 8
  {
    match size
    case Sm => 4
    case Md => 6
    case Lg => 8
  }

  /** The side of the square the gauge is drawn in: 80, 120 or 160. */
  function Dimension(size: Size): (d: int)
    ensures size == Sm <==> d == 80
    ensures size == Md <==> d == 120
    ensures size == Lg <==> d == 160
  {
    match size
    case Sm => 80
    case Md => 120
    case Lg => 160
  }

  /** `(size - strokeWidth) / 2`: the circle plus half a stroke on either side
      fills the square exactly, and the radius is always a positive whole
      number (38, 57 or 76). */
  function Radius(size: Size): (r: int)
    ensures 2 * r + StrokeWidth(size) == Dimension(size)
    ensures r > 0
    ensures r == 38 || r == 57 || r == 76
  {
    (Dimension(size) - StrokeWidth(size)) / 2
  }
}

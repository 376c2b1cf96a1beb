/**
 * The zoom slider widget of the capture screen (Slider.java): a position on
 * one axis, changed by touch and by fixed steps, reported to one listener,
 * and the integer geometry of its track and indicator.
 *
 * Java's `double` position is modelled as a `real`. This is exact where Java
 * is not, and the difference shows: 0.1 has no exact binary form, so ten
 * increments from 0 leave a Java slider at 0.9999999999999999, and only the
 * eleventh reaches 1 (and notifies), while here the tenth reaches 1. Ten
 * decrements from 1 likewise stop at 1.3877787807814457e-16 in Java. The
 * equality test in setPosition compares the rounded values in Java.
 */
module SliderView {
  import opened Optional
  import opened JavaNumerics
  import opened RealFacts

  /** android.graphics.Rect: edges in pixels, y growing downwards. */
  datatype Rect = Rect(left: int, top: int, right: int, bottom: int) {
    function Width(): int { right - left }
    function Height(): int { bottom - top }
    /** Rect.centerX() is `(left + right) >> 1`, which rounds down, as Dafny's `/ 2` does. */
    function CenterX(): int { (left + right) / 2 }
    function CenterY(): int { (top + bottom) / 2 }
  }

  /** The step of increment() and decrement(). */
  const Step: real := 0.1
  /** kMargin in onDraw: the indicator's travel is the axis length less this. */
  const Margin: int := 48
  /** The background track is inset by this much from each end of the axis. */
  const TrackInset: int := 10
  /** The track's half-thickness when the background drawable gives none. */
  const DefaultHalfThickness: int := 5

  // ---------------------------------------------------------------------------
  // Position updates as functions of the current position

  /** The value increment() passes to setPosition: p + 0.1, or 1 once that is not below 1. */
  function IncrementTarget(p: real): (r: real)
    ensures r <= 1.0 && r <= p + Step
    ensures r == 1.0 || r == p + Step
    ensures -Step <= p ==> 0.0 <= r
    ensures 1.0 - Step <= p ==> r == 1.0
  {
    var position := p + Step;
    if position < 1.0 then position else 1.0
  }

  /** The value decrement() passes to setPosition: p - 0.1, or 0 once that is not above 0. */
  function DecrementTarget(p: real): (r: real)
    ensures 0.0 <= r && p - Step <= r
    ensures r == 0.0 || r == p - Step
    ensures p <= 1.0 + Step ==> r <= 1.0
    ensures p <= Step ==> r == 0.0
  {
    var position := p - Step;
    if position > 0.0 then position else 0.0
  }

  /**
   * A step up followed by a step down returns to the start unless the step
   * up was absorbed at 1, and a step down followed by a step up returns to
   * the start unless the step down was absorbed at 0 (exactly so only on
   * reals; see the module comment).
   */
  lemma StepRoundTrip(p: real)
    ensures 0.0 <= p <= 1.0 - Step ==> DecrementTarget(IncrementTarget(p)) == p
    ensures Step <= p <= 1.0 ==> IncrementTarget(DecrementTarget(p)) == p
    ensures 1.0 - Step < p <= 1.0 ==> DecrementTarget(IncrementTarget(p)) == 1.0 - Step
  {
  }

  /** The touch listener needs a drawing rect of positive extent along the slider's axis. */
  predicate Touchable(vertical: bool, area: Rect)
  {
    if vertical then 0 < area.Height() else 0 < area.Width()
  }

  /**
   * The position the touch listener computes for a touch at (x, y): the
   * fraction of the axis from the bottom (vertical) or the left (horizontal)
   * edge of the drawing rect, clamped to [0, 1].
   */
  function TouchPosition(vertical: bool, area: Rect, x: real, y: real): (p: real)
    requires Touchable(vertical, area)
    ensures 0.0 <= p <= 1.0
    ensures vertical && area.bottom as real <= y ==> p == 0.0
    ensures vertical && y <= area.top as real ==> p == 1.0
    ensures vertical && area.top as real <= y <= area.bottom as real ==>
              p == (area.bottom as real - y) / area.Height() as real
    ensures !vertical && x <= area.left as real ==> p == 0.0
    ensures !vertical && area.right as real <= x ==> p == 1.0
    ensures !vertical && area.left as real <= x <= area.right as real ==>
              p == (x - area.left as real) / area.Width() as real
  {
    var n := if vertical then area.bottom as real - y else x - area.left as real;
    var extent := if vertical then area.Height() else area.Width();
    var raw := n / extent as real;
    Fraction(n, extent);
    var position := if raw < 0.0 then 0.0 else raw;
    if 1.0 < position then 1.0 else position
  }

  // ---------------------------------------------------------------------------
  // The slider object

  /** What setPosition hands its listener when the position goes from `before` to `after`. */
  function Notification(before: real, after: real): Option<real>
  {
    if before == after then None else Some(after)
  }

  class Slider {
    /** mPosition. */
    var position: real
    /** mVertical, fixed by initSliderView. */
    const vertical: bool
    /** Every value passed to the listener's onPositionChange, in order. */
    ghost var notified: seq<real>
    /** The number of invalidate() calls (redraw requests). */
    ghost var redraws: nat

    /** initSliderView: position 0, no notification, no redraw. */
    constructor (vertical: bool)
      ensures this.vertical == vertical
      ensures position == 0.0 && notified == [] && redraws == 0
    {
      this.vertical := vertical;
      position := 0.0;
      notified := [];
      redraws := 0;
    }

    /**
     * setPosition: stores exactly `value` (no clamping). When it differs from
     * the current position the view is invalidated and the listener is
     * called once with it; an equal value changes nothing. `heard` is what
     * the listener received.
     */
    method SetPosition(value: real) returns (heard: Option<real>)
      modifies this`position, this`notified, this`redraws
      ensures position == value
      ensures value == old(position) ==>
                heard == None && notified == old(notified) && redraws == old(redraws)
      ensures value != old(position) ==>
                heard == Some(value) && notified == old(notified) + [value] && redraws == old(redraws) + 1
    {
      heard := None;
      if position != value {
        redraws := redraws + 1;
        position := value;
        notified := notified + [position];
        heard := Some(position);
      }
    }

    /** increment: step up by 0.1, stopping at 1; a step absorbed at 1 notifies nobody. */
    method Increment() returns (heard: Option<real>)
      modifies this`position, this`notified, this`redraws
      ensures position == IncrementTarget(old(position))
      ensures heard == Notification(old(position), position)
      ensures notified == old(notified) + Values(heard)
      ensures redraws == old(redraws) + |Values(heard)|
    {
      var p := position + Step;
      if p < 1.0 {
        heard := SetPosition(p);
      } else {
        heard := SetPosition(1.0);
      }
    }

    /** decrement: step down by 0.1, stopping at 0; a step absorbed at 0 notifies nobody. */
    method Decrement() returns (heard: Option<real>)
      modifies this`position, this`notified, this`redraws
      ensures position == DecrementTarget(old(position))
      ensures heard == Notification(old(position), position)
      ensures notified == old(notified) + Values(heard)
      ensures redraws == old(redraws) + |Values(heard)|
    {
      var p := position - Step;
      if p > 0.0 {
        heard := SetPosition(p);
      } else {
        heard := SetPosition(0.0);
      }
    }

    /** The touch listener: set the position to the clamped projection of the touch point. */
    method Touch(area: Rect, x: real, y: real) returns (heard: Option<real>)
      requires Touchable(vertical, area)
      modifies this`position, this`notified, this`redraws
      ensures position == TouchPosition(vertical, area, x, y)
      ensures 0.0 <= position <= 1.0
      ensures heard == Notification(old(position), position)
      ensures notified == old(notified) + Values(heard)
      ensures redraws == old(redraws) + |Values(heard)|
    {
      var raw: real;
      if vertical {
        raw := (area.bottom as real - y) / area.Height() as real;
      } else {
        raw := (x - area.left as real) / area.Width() as real;
      }
      var p := if raw < 0.0 then 0.0 else raw;
      p := if 1.0 < p then 1.0 else p;
      heard := SetPosition(p);
    }
  }

  // ---------------------------------------------------------------------------
  // Any sequence of user inputs keeps the position in [0, 1]

  /** The user inputs that move the slider: the two zoom buttons and a touch. */
  datatype SliderInput = StepUp | StepDown | TouchAt(area: Rect, x: real, y: real)

  predicate Admissible(vertical: bool, inputs: seq<SliderInput>)
  {
    forall i :: 0 <= i < |inputs| ==> inputs[i].TouchAt? ==> Touchable(vertical, inputs[i].area)
  }

  /** The position after one input. */
  function Apply(vertical: bool, p: real, input: SliderInput): (q: real)
    requires input.TouchAt? ==> Touchable(vertical, input.area)
    ensures 0.0 <= p <= 1.0 ==> 0.0 <= q <= 1.0
    ensures input.TouchAt? ==> 0.0 <= q <= 1.0
  {
    match input
    case StepUp => IncrementTarget(p)
    case StepDown => DecrementTarget(p)
    case TouchAt(area, x, y) => TouchPosition(vertical, area, x, y)
  }

  /** The position after a sequence of inputs. */
  function Run(vertical: bool, p: real, inputs: seq<SliderInput>): real
    requires Admissible(vertical, inputs)
    decreases |inputs|
  {
    if inputs == [] then p
    else Run(vertical, Apply(vertical, p, inputs[0]), inputs[1..])
  }

  /** Inputs never take a position in [0, 1] out of it. */
  lemma {:induction false} RunStaysInUnit(vertical: bool, p: real, inputs: seq<SliderInput>)
    requires Admissible(vertical, inputs)
    requires 0.0 <= p <= 1.0
    ensures 0.0 <= Run(vertical, p, inputs) <= 1.0
    decreases |inputs|
  {
    if inputs != [] {
      var q := Apply(vertical, p, inputs[0]);
      assert Admissible(vertical, inputs[1..]) by {
        forall i | 0 <= i < |inputs[1..]| ensures inputs[1..][i] == inputs[i + 1] { }
      }
      RunStaysInUnit(vertical, q, inputs[1..]);
    }
  }

  /** From the initial position 0, no sequence of inputs leaves [0, 1]. */
  lemma FromRestStaysInUnit(vertical: bool, inputs: seq<SliderInput>)
    requires Admissible(vertical, inputs)
    ensures 0.0 <= Run(vertical, 0.0, inputs) <= 1.0
  {
    RunStaysInUnit(vertical, 0.0, inputs);
  }

  // ---------------------------------------------------------------------------
  // Geometry of onDraw

  /**
   * centerAround: the bounds of a w-by-h drawable centred at (x, y). The
   * size is kept exactly; for a non-negative size the centre (as Rect rounds
   * it) is (x, y); a drawable reporting no intrinsic size (-1) gets its
   * left/top edge at x/y.
   */
  function CenterAround(x: int, y: int, w: int, h: int): (b: Rect)
    ensures b.Width() == w && b.Height() == h
    ensures 0 <= w ==> b.CenterX() == x
    ensures 0 <= h ==> b.CenterY() == y
    ensures -1 <= w <= 1 ==> b.left == x
    ensures -1 <= h <= 1 ==> b.top == y
  {
    var left := x - HalfTowardZero(w);
    var top := y - HalfTowardZero(h);
    Rect(left, top, left + w, top + h)
  }

  /** Half the track's thickness: half the background's intrinsic size, or 5 when that halves to 0. */
  function HalfThickness(intrinsic: int): (h: int)
    ensures h != 0
    ensures -1 <= intrinsic <= 1 ==> h == DefaultHalfThickness
    ensures 2 <= intrinsic ==> 0 < h && 0 <= intrinsic - 2 * h <= 1
    ensures intrinsic <= -2 ==> h < 0 && -1 <= intrinsic - 2 * h <= 0
  {
    var half := HalfTowardZero(intrinsic);
    if half == 0 then DefaultHalfThickness else half
  }

  /**
   * The bounds given to the background track: along the axis it is inset by
   * 10 from each end of the drawing rect; across it, it is centred on the
   * rect's centre line with twice the half-thickness.
   */
  function TrackBounds(vertical: bool, area: Rect, bgWidth: int, bgHeight: int): (t: Rect)
    ensures vertical ==> t.top == area.top + TrackInset && t.bottom == area.bottom - TrackInset
    ensures vertical ==> t.CenterX() == area.CenterX() && t.Width() == 2 * HalfThickness(bgWidth)
    ensures !vertical ==> t.left == area.left + TrackInset && t.right == area.right - TrackInset
    ensures !vertical ==> t.CenterY() == area.CenterY() && t.Height() == 2 * HalfThickness(bgHeight)
  {
    if vertical then
      var lineX := area.CenterX();
      var bgW := HalfThickness(bgWidth);
      Rect(lineX - bgW, area.top + TrackInset, lineX + bgW, area.bottom - TrackInset)
    else
      var lineY := area.CenterY();
      var bgH := HalfThickness(bgHeight);
      Rect(area.left + TrackInset, lineY - bgH, area.right - TrackInset, lineY + bgH)
  }

  /**
   * The horizontal indicator's centre X: position 0 puts it 24 right of the
   * left edge, position 1 24 left of the right edge, and positions in
   * between stay between the two when the rect is at least 48 wide.
   */
  function IndicatorX(area: Rect, pos: real): (x: int)
    ensures pos == 0.0 ==> x == area.left + Margin / 2
    ensures pos == 1.0 ==> x == area.right - Margin / 2
    ensures Margin <= area.Width() && 0.0 <= pos <= 1.0 ==>
              area.left + Margin / 2 <= x <= area.right - Margin / 2
  {
    var travel := area.Width() - Margin;
    var offset := TruncToInt(Scale(travel, pos));
    ScaleEnds(travel);
    assert Margin <= area.Width() && 0.0 <= pos <= 1.0 ==> 0 <= offset <= travel by {
      if Margin <= area.Width() && 0.0 <= pos <= 1.0 {
        ScaledWithin(travel, pos);
        TruncBetween(Scale(travel, pos), 0, travel);
      }
    }
    offset + area.left + Margin / 2
  }

  /**
   * The vertical indicator's centre Y: position 0 puts it 24 above the
   * bottom edge, position 1 24 below the top edge, and positions in between
   * stay between the two when the rect is at least 48 tall.
   */
  function IndicatorY(area: Rect, pos: real): (y: int)
    ensures pos == 0.0 ==> y == area.bottom - Margin / 2
    ensures pos == 1.0 ==> y == area.top + Margin / 2
    ensures Margin <= area.Height() && 0.0 <= pos <= 1.0 ==>
              area.top + Margin / 2 <= y <= area.bottom - Margin / 2
  {
    var travel := area.Height() - Margin;
    var level := TruncToInt(area.bottom as real - Scale(travel, pos));
    ScaleEnds(travel);
    assert Margin <= area.Height() && 0.0 <= pos <= 1.0 ==> area.top + Margin <= level <= area.bottom by {
      if Margin <= area.Height() && 0.0 <= pos <= 1.0 {
        ScaledWithin(travel, pos);
        TruncBetween(area.bottom as real - Scale(travel, pos), area.top + Margin, area.bottom);
      }
    }
    level - Margin / 2
  }

  /** IndicatorX is the Java expression `(int)((width - 48) * pos) + left + 24`. */
  lemma IndicatorXIsProduct(area: Rect, pos: real)
    ensures IndicatorX(area, pos) == TruncToInt((area.Width() - Margin) as real * pos) + area.left + Margin / 2
  {
    var travel := area.Width() - Margin;
    var product := travel as real * pos;
    assert Scale(travel, pos) == product by { ScaleIsProduct(travel, pos); }
    assert IndicatorX(area, pos) == TruncToInt(product) + area.left + Margin / 2;
  }

  /** IndicatorY is the Java expression `(int)(bottom - (height - 48) * pos) - 24`. */
  lemma IndicatorYIsProduct(area: Rect, pos: real)
    ensures IndicatorY(area, pos) == TruncToInt(area.bottom as real - (area.Height() - Margin) as real * pos) - Margin / 2
  {
    var travel := area.Height() - Margin;
    var product := travel as real * pos;
    assert Scale(travel, pos) == product by { ScaleIsProduct(travel, pos); }
    assert IndicatorY(area, pos) == TruncToInt(area.bottom as real - product) - Margin / 2;
  }

  /** A higher position never moves the horizontal indicator left. */
  lemma IndicatorXMonotone(area: Rect, p: real, q: real)
    requires Margin <= area.Width() && p <= q
    ensures IndicatorX(area, p) <= IndicatorX(area, q)
  {
    var travel := area.Width() - Margin;
    ScaleMonotone(travel, p, q);
    TruncMonotone(Scale(travel, p), Scale(travel, q));
  }

  /** A higher position never moves the vertical indicator down (towards larger y). */
  lemma IndicatorYAntitone(area: Rect, p: real, q: real)
    requires Margin <= area.Height() && p <= q
    ensures IndicatorY(area, q) <= IndicatorY(area, p)
  {
    var travel := area.Height() - Margin;
    ScaleMonotone(travel, p, q);
    TruncMonotone(area.bottom as real - Scale(travel, q), area.bottom as real - Scale(travel, p));
  }

  /**
   * The bounds given to the indicator drawable of intrinsic size w-by-h: its
   * centre is on the rect's centre line, at the position-mapped coordinate.
   */
  function ThumbBounds(vertical: bool, area: Rect, pos: real, w: int, h: int): (b: Rect)
    ensures b.Width() == w && b.Height() == h
    ensures vertical && 0 <= w ==> b.CenterX() == area.CenterX()
    ensures vertical && 0 <= h ==> b.CenterY() == IndicatorY(area, pos)
    ensures !vertical && 0 <= w ==> b.CenterX() == IndicatorX(area, pos)
    ensures !vertical && 0 <= h ==> b.CenterY() == area.CenterY()
  {
    if vertical then CenterAround(area.CenterX(), IndicatorY(area, pos), w, h)
    else CenterAround(IndicatorX(area, pos), area.CenterY(), w, h)
  }
}

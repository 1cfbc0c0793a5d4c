/**
 * The reveal and dismiss animation of a popup panel. One timeline drives the
 * panel's opacity and scale together; each frame of the timeline is an explicit
 * call of `UpdateAnim` with the frame's delta (in 1/60 s units), standing for
 * the popup's own ticker.
 */
module PopupAnimation {
  import opened Wrappers
  import Screen

  const SHOW_DURATION: real := 0.5
  const HIDE_DURATION: real := 0.2
  /** Share of the show timeline spent growing to the overshoot. */
  const PHASE1: real := 0.7
  const PEAK: real := 1.2
  /** The nominal size of the popup content, in both axes. */
  const CONTENT_SIZE: real := 300.0
  /** The content may reach 1.2 times the limiting viewport axis. */
  const MAX_VIEWPORT_SHARE: real := 1.2

  /** A completion callback, by identity. */
  type Callback = nat

  /** The show animation runs from 0 to 1; everything else counts as a dismissal for timing. */
  predicate IsShow(from: real, to: real) { from == 0.0 && to == 1.0 }
  predicate IsHide(from: real, to: real) { from == 1.0 && to == 0.0 }

  function Duration(from: real, to: real): (d: real)
    ensures d > 0.0
    ensures IsShow(from, to) ==> d == SHOW_DURATION
    ensures !IsShow(from, to) ==> d == HIDE_DURATION
  {
    if IsShow(from, to) then SHOW_DURATION else HIDE_DURATION
  }

  /** Elapsed time over duration, capped at 1. */
  function NormalizedTime(elapsed: real, duration: real): (t: real)
    requires duration > 0.0
    ensures t <= 1.0
    ensures t == 1.0 <==> elapsed >= duration
    ensures elapsed >= 0.0 ==> t >= 0.0
  {
    var ratio := elapsed / duration;
    if ratio <= 1.0 then ratio else 1.0
  }

  /** First phase of the show curve: ease-out quadratic from 0 up to the overshoot. */
  function ShowRise(t: real): real
  {
    var p := t / PHASE1;
    (1.0 - (1.0 - p) * (1.0 - p)) * PEAK
  }

  /** Second phase of the show curve: linear from the overshoot back down to 1. */
  function ShowSettle(t: real): real
  {
    var p := (t - PHASE1) / (1.0 - PHASE1);
    PEAK - p * 0.2
  }

  /** The show scale curve, before it is multiplied by the base scale. */
  function ShowScale(t: real): real
  {
    if t < PHASE1 then ShowRise(t) else ShowSettle(t)
  }

  /** The hide scale curve: linear from 1 down to 0. */
  function HideScale(t: real): (s: real)
    ensures t == 0.0 ==> s == 1.0
    ensures t == 1.0 ==> s == 0.0
    ensures 0.0 <= t <= 1.0 ==> 0.0 <= s <= 1.0
  {
    1.0 - t
  }

  /** The scale curve a timeline follows: show, hide, or a constant 1 for any other pair. */
  function CurveScale(from: real, to: real, t: real): real
  {
    if IsShow(from, to) then ShowScale(t)
    else if IsHide(from, to) then HideScale(t)
    else 1.0
  }

  /** Scaling by a fraction in [0, 1] moves a number towards 0 without crossing it. */
  lemma FractionOf(x: real, t: real)
    requires 0.0 <= t <= 1.0
    ensures 0.0 <= x ==> 0.0 <= x * t <= x
    ensures x <= 0.0 ==> x <= x * t <= 0.0
  {
    assert x - x * t == x * (1.0 - t);
    if 0.0 <= x {
      assert x * (1.0 - t) >= 0.0;
    } else {
      assert x * (1.0 - t) <= 0.0;
    }
  }

  /** Linear opacity: `from` at t = 0 and exactly `to` at t = 1, in between for t in [0, 1]. */
  function Interpolate(from: real, to: real, t: real): (v: real)
    ensures t == 0.0 ==> v == from
    ensures t == 1.0 ==> v == to
    ensures 0.0 <= t <= 1.0 && from <= to ==> from <= v <= to
    ensures 0.0 <= t <= 1.0 && to <= from ==> to <= v <= from
  {
    var v := from + (to - from) * t;
    if 0.0 <= t <= 1.0 then FractionOf(to - from, t); v else v
  }

  /** The show curve starts at 0, overshoots to 1.2 at 70% of the time and ends at 1. */
  lemma ShowScaleKeyPoints()
    ensures ShowScale(0.0) == 0.0
    ensures ShowScale(PHASE1) == PEAK
    ensures ShowScale(1.0) == 1.0
  {
  }

  /** The two phases meet at the boundary: the rising phase reaches the overshoot exactly. */
  lemma ShowScaleContinuous()
    ensures ShowRise(PHASE1) == ShowSettle(PHASE1) == PEAK
  {
  }

  lemma SquareAntitone(x: real, y: real)
    requires 0.0 <= y <= x
    ensures y * y <= x * x
  {
    assert x * x - y * y == (x - y) * (x + y);
    assert (x - y) * (x + y) >= 0.0;
  }

  /** The show curve never shrinks during the first 70% of the timeline. */
  lemma ShowScaleRises(a: real, b: real)
    requires 0.0 <= a <= b <= PHASE1
    ensures ShowScale(a) <= ShowScale(b)
  {
    var pa, pb := a / PHASE1, b / PHASE1;
    assert 0.0 <= pa <= pb <= 1.0;
    SquareAntitone(1.0 - pa, 1.0 - pb);
    assert ShowRise(a) <= ShowRise(b);
    if b == PHASE1 {
      ShowScaleContinuous();
    }
  }

  /** The show curve never grows during the last 30% of the timeline. */
  lemma ShowScaleSettles(a: real, b: real)
    requires PHASE1 <= a <= b <= 1.0
    ensures ShowScale(b) <= ShowScale(a)
    ensures 1.0 <= ShowScale(b)
  {
    var pa, pb := (a - PHASE1) / (1.0 - PHASE1), (b - PHASE1) / (1.0 - PHASE1);
    assert pa <= pb <= 1.0;
  }

  /** On [0, 1] the show curve stays between 0 and the overshoot. */
  lemma ShowScaleBounded(t: real)
    requires 0.0 <= t <= 1.0
    ensures 0.0 <= ShowScale(t) <= PEAK
  {
    if t < PHASE1 {
      ShowScaleRises(0.0, t);
      ShowScaleRises(t, PHASE1);
    } else {
      ShowScaleSettles(PHASE1, t);
    }
  }

  /**
   * The resting scale for a viewport: 1 when the content fits within 1.2 times
   * the limiting axis (height in landscape, width otherwise), else the share
   * that makes it fit. It is never above 1.
   */
  function BaseScale(landscape: bool, width: int, height: int): (b: real)
    ensures b <= 1.0
    ensures var limit := MAX_VIEWPORT_SHARE * (if landscape then height else width) as real;
            && (b == 1.0 <==> CONTENT_SIZE <= limit)
            && (b < 1.0 ==> b * CONTENT_SIZE == limit)
            && (limit > 0.0 ==> b > 0.0)
  {
    var limit := MAX_VIEWPORT_SHARE * (if landscape then height else width) as real;
    if CONTENT_SIZE > limit then limit / CONTENT_SIZE else 1.0
  }

  class PopupUI {
    const screen: Screen.ScreenAdapter
    /** Whether the popup's ticker exists and is calling `UpdateAnim`. */
    var ticking: bool
    var animTime: real
    var animDuration: real
    var animFrom: real
    var animTo: real
    var onComplete: Option<Callback>
    var baseScale: real
    var panelX: real
    var panelY: real
    var panelAlpha: real
    var panelScale: real
    /** The completion callbacks that have run, in order. */
    var completed: seq<Callback>

    ghost predicate Valid()
      reads this
    {
      animDuration > 0.0 && baseScale <= 1.0
    }

    /** A new popup is transparent, at scale 0 and idle. */
    constructor (screen: Screen.ScreenAdapter)
      ensures Valid() && this.screen == screen
      ensures panelAlpha == 0.0 && panelScale == 0.0 && baseScale == 1.0
      ensures !ticking && animTime == 0.0 && animDuration == SHOW_DURATION
      ensures animFrom == 0.0 && animTo == 0.0 && onComplete == None && completed == []
    {
      this.screen := screen;
      ticking := false;
      animTime := 0.0;
      animDuration := SHOW_DURATION;
      animFrom := 0.0;
      animTo := 0.0;
      onComplete := None;
      baseScale := 1.0;
      panelX := 0.0;
      panelY := 0.0;
      panelAlpha := 0.0;
      panelScale := 0.0;
      completed := [];
    }

    /** Centres the panel and recomputes the resting scale; an idle shown panel takes it at once. */
    method Resize(width: int, height: int)
      requires Valid()
      modifies this
      ensures Valid()
      ensures panelX == width as real * 0.5 && panelY == height as real * 0.5
      ensures baseScale == BaseScale(screen.IsLandscape(), width, height)
      ensures panelScale == if !ticking && animTo == 1.0 then baseScale else old(panelScale)
      ensures ticking == old(ticking) && animTime == old(animTime) && animDuration == old(animDuration)
      ensures animFrom == old(animFrom) && animTo == old(animTo) && onComplete == old(onComplete)
      ensures panelAlpha == old(panelAlpha) && completed == old(completed)
    {
      panelX := width as real * 0.5;
      panelY := height as real * 0.5;
      baseScale := BaseScale(screen.IsLandscape(), width, height);
      if !ticking && animTo == 1.0 {
        panelScale := baseScale;
      }
    }

    /**
     * Starts a timeline, replacing any running one: the old ticker is dropped
     * and the old callback is overwritten, so it never runs.
     */
    method StartAnim(from: real, to: real, cb: Option<Callback>)
      requires Valid()
      modifies this
      ensures Valid()
      ensures animFrom == from && animTo == to && animTime == 0.0 && onComplete == cb
      ensures animDuration == Duration(from, to)
      ensures panelAlpha == from
      ensures panelScale == if IsShow(from, to) then 0.0 else if IsHide(from, to) then baseScale else old(panelScale)
      ensures ticking && baseScale == old(baseScale) && completed == old(completed)
      ensures panelX == old(panelX) && panelY == old(panelY)
    {
      animFrom := from;
      animTo := to;
      animTime := 0.0;
      onComplete := cb;
      if from == 0.0 && to == 1.0 {
        animDuration := SHOW_DURATION;
      } else {
        animDuration := HIDE_DURATION;
      }
      panelAlpha := from;
      if from == 0.0 && to == 1.0 {
        panelScale := 0.0;
      } else if from == 1.0 && to == 0.0 {
        panelScale := baseScale;
      }
      ticking := true;
    }

    /** Reveal: 0.5 s from transparent and scale 0, with no callback. */
    method Show()
      requires Valid()
      modifies this
      ensures Valid()
      ensures animFrom == 0.0 && animTo == 1.0 && animDuration == SHOW_DURATION && animTime == 0.0
      ensures panelAlpha == 0.0 && panelScale == 0.0 && onComplete == None && ticking
      ensures baseScale == old(baseScale) && completed == old(completed)
      ensures panelX == old(panelX) && panelY == old(panelY)
    {
      StartAnim(0.0, 1.0, None);
    }

    /** Dismiss: 0.2 s from opaque and the resting scale; `onHidden` runs when it completes. */
    method Hide(onHidden: Option<Callback>)
      requires Valid()
      modifies this
      ensures Valid()
      ensures animFrom == 1.0 && animTo == 0.0 && animDuration == HIDE_DURATION && animTime == 0.0
      ensures panelAlpha == 1.0 && panelScale == baseScale && onComplete == onHidden && ticking
      ensures baseScale == old(baseScale) && completed == old(completed)
      ensures panelX == old(panelX) && panelY == old(panelY)
    {
      StartAnim(1.0, 0.0, onHidden);
    }

    /**
     * One tick of the popup's ticker. It advances the clock by `delta / 60`
     * seconds and samples both curves at the normalised time; when the time
     * is up, it stops the ticker and runs the stored callback once.
     */
    method UpdateAnim(delta: real)
      requires Valid() && ticking
      modifies this
      ensures Valid()
      ensures animTime == old(animTime) + delta / 60.0
      ensures var t := NormalizedTime(animTime, animDuration);
              && panelAlpha == Interpolate(animFrom, animTo, t)
              && panelScale == CurveScale(animFrom, animTo, t) * baseScale
              && ticking == (t < 1.0)
              && completed == old(completed) + (if t == 1.0 && onComplete.Some? then [onComplete.value] else [])
      ensures !ticking && IsShow(animFrom, animTo) ==> panelAlpha == 1.0 && panelScale == baseScale
      ensures !ticking && IsHide(animFrom, animTo) ==> panelAlpha == 0.0 && panelScale == 0.0
      ensures animFrom == old(animFrom) && animTo == old(animTo) && animDuration == old(animDuration)
      ensures baseScale == old(baseScale) && onComplete == old(onComplete)
      ensures panelX == old(panelX) && panelY == old(panelY)
    {
      animTime := animTime + delta / 60.0;
      var t := NormalizedTime(animTime, animDuration);
      var scale := 1.0;
      if animFrom == 0.0 && animTo == 1.0 {
        if t < PHASE1 {
          var pt := t / PHASE1;
          scale := (1.0 - (1.0 - pt) * (1.0 - pt)) * PEAK;
        } else {
          var pt := (t - PHASE1) / (1.0 - PHASE1);
          scale := PEAK - pt * 0.2;
        }
      } else if animFrom == 1.0 && animTo == 0.0 {
        scale := 1.0 - t;
      }
      panelAlpha := animFrom + (animTo - animFrom) * t;
      panelScale := scale * baseScale;
      if t >= 1.0 {
        ticking := false;
        if onComplete.Some? {
          completed := completed + [onComplete.value];
        }
      }
      ShowScaleKeyPoints();
    }
  }
}

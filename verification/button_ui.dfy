/**
 * A pressable button: a disabled flag gating the pointer handlers, a target
 * scale the handlers set, a per-frame smoothing step that moves the render
 * scale towards it, darkened colours for the disabled look, and the frame
 * callbacks it registers and must remove on teardown. The click sound and the
 * click notification are recorded in an event log.
 */
module Buttons {
  import opened Wrappers

  /** Colours are 0xRRGGBB numbers. */
  type Color = nat

  const DISABLED_BACKGROUND_NUM: nat := 6
  const DISABLED_TEXT_NUM: nat := 7
  const FACTOR_DEN: nat := 10

  const ANIMATION_SPEED: real := 0.15
  const SNAP_EPSILON: real := 0.001

  /**
   * The channels as `(c >> 16) & 0xff`, `(c >> 8) & 0xff` and `c & 0xff` see
   * them: a shift right by k bits is a floor division by 2^k, and masking with
   * 0xff keeps the remainder modulo 256. Wrapping to 32 bits first does not
   * touch the low 24 bits, so this holds for every colour.
   */
  function Red(c: Color): (v: int) ensures 0 <= v < 0x100 { (c / 0x10000) % 0x100 }
  function Green(c: Color): (v: int) ensures 0 <= v < 0x100 { (c / 0x100) % 0x100 }
  function Blue(c: Color): (v: int) ensures 0 <= v < 0x100 { c % 0x100 }

  /** If `a * k <= b * k` for a positive `k`, then `a <= b`. */
  lemma CancelFactor(a: int, b: int, k: int)
    requires 0 < k && a * k <= b * k
    ensures a <= b
  {
    assert (b - a) * k >= 0;
  }

  /** Rounding `channel * num / den` down stays within `0 .. channel` when `num <= den`. */
  lemma ScaledDownBound(channel: int, num: nat, den: nat)
    requires 0 <= channel && 0 < den && num <= den
    ensures 0 <= channel * num / den <= channel
  {
    var p := channel * num;
    var q, m := p / den, p % den;
    assert p == q * den + m && 0 <= m < den;
    assert 0 <= p <= channel * den by {
      assert channel * (den - num) >= 0;
    }
    CancelFactor(-1, q, den);
    CancelFactor(q, channel, den);
  }

  /** `floor(channel * num / den)`; it never exceeds the channel when the factor is at most 1. */
  function ScaleChannel(channel: int, num: nat, den: nat): (v: int)
    requires 0 <= channel < 0x100 && 0 < den && num <= den
    ensures 0 <= v < 0x100 && v == channel * num / den && v <= channel
  {
    ScaledDownBound(channel, num, den);
    channel * num / den
  }

  /**
   * Packs three bytes into 0xRRGGBB, as `(r << 16) | (g << 8) | b` does: the
   * shifted bytes occupy disjoint bits, so the bitwise or is their sum.
   */
  function Pack(r: int, g: int, b: int): (c: Color)
    requires 0 <= r < 0x100 && 0 <= g < 0x100 && 0 <= b < 0x100
    ensures c < 0x1000000
    ensures Red(c) == r && Green(c) == g && Blue(c) == b
  {
    var c := r * 0x10000 + g * 0x100 + b;
    assert c / 0x100 == r * 0x100 + g;
    assert c / 0x10000 == r;
    c
  }

  /**
   * Multiplies each RGB channel by `num / den` and rounds down. Every output
   * channel is at most the input channel, and the result fits in 24 bits.
   */
  function DarkenColor(color: Color, num: nat, den: nat): (r: Color)
    requires 0 < den && num <= den
    ensures r < 0x1000000
    ensures Red(r) == Red(color) * num / den && Red(r) <= Red(color)
    ensures Green(r) == Green(color) * num / den && Green(r) <= Green(color)
    ensures Blue(r) == Blue(color) * num / den && Blue(r) <= Blue(color)
  {
    Pack(ScaleChannel(Red(color), num, den), ScaleChannel(Green(color), num, den), ScaleChannel(Blue(color), num, den))
  }

  function Abs(x: real): real { if x < 0.0 then -x else x }

  /**
   * One frame of the press-scale animation: move 15% of the way to the target,
   * or land on it when the remaining distance was already below 0.001.
   */
  function SmoothStep(current: real, target: real): (next: real)
    ensures current <= target ==> current <= next <= target
    ensures target <= current ==> target <= next <= current
    ensures Abs(target - current) < SNAP_EPSILON ==> next == target
    ensures Abs(target - next) <= (1.0 - ANIMATION_SPEED) * Abs(target - current)
  {
    var diff := target - current;
    var moved := current + diff * ANIMATION_SPEED;
    if Abs(diff) < SNAP_EPSILON then target else moved
  }

  /** The render scale after `frames` frames with a fixed target. */
  function Smoothed(current: real, target: real, frames: nat): real
    decreases frames
  {
    if frames == 0 then current else Smoothed(SmoothStep(current, target), target, frames - 1)
  }

  lemma {:induction false} SmoothedStaysAtTarget(target: real, frames: nat)
    ensures Smoothed(target, target, frames) == target
  {
    if frames > 0 {
      SmoothedStaysAtTarget(target, frames - 1);
    }
  }

  /**
   * The smoothing never oscillates and lands exactly on its target within a
   * bounded number of frames: every frame that does not snap removes at least
   * 0.00015 of the distance, so `frames` frames suffice once
   * `frames * 0.00015` covers the starting distance.
   */
  lemma {:induction false} SmoothingSettles(current: real, target: real, frames: nat)
    requires frames >= 1
    requires Abs(target - current) <= frames as real * 0.00015
    ensures Smoothed(current, target, frames) == target
    decreases frames
  {
    var next := SmoothStep(current, target);
    if Abs(target - current) < SNAP_EPSILON {
      assert next == target;
      SmoothedStaysAtTarget(target, frames - 1);
    } else {
      assert Abs(target - next) <= Abs(target - current) - 0.00015;
      assert frames >= 7;
      SmoothingSettles(next, target, frames - 1);
    }
  }

  /** `x` to the power `n`. */
  function Pow(x: real, n: nat): real
  {
    if n == 0 then 1.0 else x * Pow(x, n - 1)
  }

  lemma {:induction false} PowNonNegative(x: real, n: nat)
    requires 0.0 <= x
    ensures 0.0 <= Pow(x, n)
  {
    if n > 0 {
      PowNonNegative(x, n - 1);
    }
  }

  lemma ScaleMonotone(k: real, a: real, b: real)
    requires 0.0 <= k && a <= b
    ensures k * a <= k * b
  {
    assert k * b - k * a == k * (b - a);
  }

  /**
   * The distance to the target shrinks geometrically: after `frames` frames it
   * is at most 0.85^frames times the starting distance.
   */
  lemma {:induction false} SmoothingContracts(current: real, target: real, frames: nat)
    ensures Abs(target - Smoothed(current, target, frames))
            <= Pow(1.0 - ANIMATION_SPEED, frames) * Abs(target - current)
    decreases frames
  {
    if frames > 0 {
      var next := SmoothStep(current, target);
      var k := Pow(1.0 - ANIMATION_SPEED, frames - 1);
      SmoothingContracts(next, target, frames - 1);
      PowNonNegative(1.0 - ANIMATION_SPEED, frames - 1);
      ScaleMonotone(k, Abs(target - next), (1.0 - ANIMATION_SPEED) * Abs(target - current));
      assert k * ((1.0 - ANIMATION_SPEED) * Abs(target - current))
          == Pow(1.0 - ANIMATION_SPEED, frames) * Abs(target - current);
    }
  }

  /** The construction options the model uses, with their defaults below. */
  datatype ButtonOptions = ButtonOptions(
    textColor: Color,
    backgroundColor: Color,
    pressedScale: real,
    isDisabled: bool,
    hasBackgroundTexture: bool)

  const DEFAULT_OPTIONS: ButtonOptions := ButtonOptions(0xffffff, 0x000000, 0.9, false, false)

  datatype EventMode = Static | NoEvents

  /** What the button makes happen outside itself. */
  datatype ButtonEvent = ClickSound | Click

  /**
   * The frame callbacks of the hand cue: whether the button still holds a
   * reference to one, and how many are registered with the shared clock.
   */
  datatype HandTickers = HandTickers(held: bool, registered: nat)

  /** `showHand` as written: it registers a new callback without removing a held one. */
  function AfterShowHand(h: HandTickers): (r: HandTickers)
    ensures r.held && r.registered == h.registered + 1
  {
    HandTickers(true, h.registered + 1)
  }

  /** `hideHand`: removes the held callback, if any. */
  function AfterHideHand(h: HandTickers): (r: HandTickers)
    requires h.held ==> h.registered >= 1
    ensures !r.held
    ensures r.registered == if h.held then h.registered - 1 else h.registered
  {
    if h.held then HandTickers(false, h.registered - 1) else h
  }

  /** Showing the hand twice and hiding it leaves one callback running against a hidden sprite. */
  lemma ShowHandTwiceLeaks()
    ensures AfterHideHand(AfterShowHand(AfterShowHand(HandTickers(false, 0)))).registered == 1
  {
  }

  /** `showHand` as evidently intended: remove the held callback before registering a new one. */
  function AfterShowHandReplacing(h: HandTickers): (r: HandTickers)
    requires h.held ==> h.registered >= 1
    ensures r.held && r.registered == AfterHideHand(h).registered + 1
  {
    HandTickers(true, AfterHideHand(h).registered + 1)
  }

  /** Callbacks the button no longer holds were all removed. */
  ghost predicate NoLeak(h: HandTickers)
  {
    h.registered == if h.held then 1 else 0
  }

  /**
   * With the replacing `showHand`, any sequence of show and hide calls keeps
   * at most the one held callback registered, and hiding removes it.
   */
  lemma ReplacingShowHandNeverLeaks(h: HandTickers)
    requires NoLeak(h)
    ensures NoLeak(AfterShowHandReplacing(h)) && NoLeak(AfterHideHand(h))
    ensures AfterHideHand(AfterShowHandReplacing(h)).registered == 0
  {
  }

  class ButtonUI {
    const pressedScale: real
    const backgroundColor: Color
    const textColor: Color
    const hasBackgroundTexture: bool
    /** The disabled colours, computed once from the original ones. */
    const disabledBackgroundColor: Color
    const disabledTextColor: Color

    var isDisabled: bool
    var eventMode: EventMode
    /** The background's fill; a textured background is a sprite and has none. */
    var backgroundFill: Option<Color>
    var textFill: Color
    var targetScale: real
    var currentScale: real
    /** Whether the press-scale frame callback is registered. */
    var animationTicker: bool
    var hand: HandTickers
    var handVisible: bool
    var destroyed: bool
    var events: seq<ButtonEvent>

    /** The facts that hold from construction on, whatever the style shown. */
    ghost predicate Derived()
      reads this
    {
      && NoLeak(hand)
      && (hasBackgroundTexture ==> backgroundFill == None)
    }

    /** Pointer events are off exactly while the button is disabled. */
    ghost predicate Gated()
      reads this
    {
      isDisabled <==> eventMode == NoEvents
    }

    /** The style shown and the pointer mode follow the disabled flag. */
    ghost predicate Valid()
      reads this
    {
      && Derived()
      && Gated()
      && (isDisabled ==> eventMode == NoEvents && textFill == disabledTextColor)
      && (!isDisabled ==> eventMode == Static && textFill == textColor)
      && backgroundFill == (if hasBackgroundTexture then None
                            else if isDisabled then Some(disabledBackgroundColor)
                            else Some(backgroundColor))
    }

    constructor (options: ButtonOptions := DEFAULT_OPTIONS)
      ensures Valid()
      ensures pressedScale == options.pressedScale && isDisabled == options.isDisabled
      ensures backgroundColor == options.backgroundColor && textColor == options.textColor
      ensures disabledBackgroundColor == DarkenColor(backgroundColor, DISABLED_BACKGROUND_NUM, FACTOR_DEN)
      ensures disabledTextColor == DarkenColor(textColor, DISABLED_TEXT_NUM, FACTOR_DEN)
      ensures targetScale == 1.0 && currentScale == 1.0
      ensures animationTicker && hand == HandTickers(false, 0) && !handVisible && !destroyed
      ensures events == []
    {
      pressedScale := options.pressedScale;
      backgroundColor := options.backgroundColor;
      textColor := options.textColor;
      hasBackgroundTexture := options.hasBackgroundTexture;
      disabledBackgroundColor := DarkenColor(options.backgroundColor, DISABLED_BACKGROUND_NUM, FACTOR_DEN);
      disabledTextColor := DarkenColor(options.textColor, DISABLED_TEXT_NUM, FACTOR_DEN);
      isDisabled := options.isDisabled;
      eventMode := Static;
      backgroundFill := if options.hasBackgroundTexture then None else Some(options.backgroundColor);
      textFill := options.textColor;
      targetScale := 1.0;
      currentScale := 1.0;
      animationTicker := true;
      hand := HandTickers(false, 0);
      handVisible := false;
      destroyed := false;
      events := [];
      new;
      if options.isDisabled {
        Disable();
      }
    }

    /** Sets the flag, stops pointer events and shows the darkened colours. */
    method Disable()
      requires Derived()
      modifies this
      ensures Valid() && isDisabled
      ensures eventMode == NoEvents && textFill == disabledTextColor
      ensures backgroundFill == if hasBackgroundTexture then None else Some(disabledBackgroundColor)
      ensures targetScale == old(targetScale) && currentScale == old(currentScale)
      ensures animationTicker == old(animationTicker) && hand == old(hand) && handVisible == old(handVisible)
      ensures destroyed == old(destroyed) && events == old(events)
    {
      isDisabled := true;
      eventMode := NoEvents;
      if !hasBackgroundTexture {
        backgroundFill := Some(disabledBackgroundColor);
      }
      textFill := disabledTextColor;
    }

    /** Clears the flag, restores pointer events and the original colours. */
    method Enable()
      requires Valid()
      modifies this
      ensures Valid() && !isDisabled
      ensures eventMode == Static && textFill == textColor
      ensures backgroundFill == if hasBackgroundTexture then None else Some(backgroundColor)
      ensures targetScale == old(targetScale) && currentScale == old(currentScale)
      ensures animationTicker == old(animationTicker) && hand == old(hand) && handVisible == old(handVisible)
      ensures destroyed == old(destroyed) && events == old(events)
    {
      isDisabled := false;
      eventMode := Static;
      if !hasBackgroundTexture {
        backgroundFill := Some(backgroundColor);
      }
      textFill := textColor;
    }

    function IsDisabled(): (r: bool)
      reads this
      requires Gated()
      ensures r <==> eventMode == NoEvents
    {
      isDisabled
    }

    /** Press: squish towards the pressed scale and ask for the click sound, unless disabled. */
    method OnDown()
      requires Valid()
      modifies this
      ensures Valid()
      ensures old(isDisabled) ==> unchanged(this)
      ensures !old(isDisabled) ==> targetScale == pressedScale && events == old(events) + [ClickSound]
      ensures isDisabled == old(isDisabled) && currentScale == old(currentScale)
      ensures hand == old(hand) && handVisible == old(handVisible)
      ensures animationTicker == old(animationTicker) && destroyed == old(destroyed)
    {
      if isDisabled {
        return;
      }
      targetScale := pressedScale;
      events := events + [ClickSound];
    }

    /** Release, inside or outside the button: back to full scale and one click, unless disabled. */
    method OnUp()
      requires Valid()
      modifies this
      ensures Valid()
      ensures old(isDisabled) ==> unchanged(this)
      ensures !old(isDisabled) ==> targetScale == 1.0 && events == old(events) + [Click]
      ensures isDisabled == old(isDisabled) && currentScale == old(currentScale)
      ensures hand == old(hand) && handVisible == old(handVisible)
      ensures animationTicker == old(animationTicker) && destroyed == old(destroyed)
    {
      if isDisabled {
        return;
      }
      targetScale := 1.0;
      events := events + [Click];
    }

    /** Hover and out have no effect in either state. */
    method OnHover()
      requires Valid()
      ensures Valid()
    {
      if isDisabled {
        return;
      }
    }

    method OnOut()
      requires Valid()
      ensures Valid()
    {
      if isDisabled {
        return;
      }
    }

    /** One call of the registered press-scale frame callback. */
    method AnimationFrame()
      requires Valid() && animationTicker
      modifies this
      ensures Valid()
      ensures currentScale == SmoothStep(old(currentScale), targetScale)
      ensures targetScale == old(targetScale) && isDisabled == old(isDisabled) && events == old(events)
      ensures animationTicker && hand == old(hand) && handVisible == old(handVisible) && destroyed == old(destroyed)
    {
      var diff := targetScale - currentScale;
      currentScale := currentScale + diff * ANIMATION_SPEED;
      if Abs(diff) < SNAP_EPSILON {
        currentScale := targetScale;
      }
    }

    /**
     * Shows the hand cue and registers its pulse callback (the pulse itself is
     * not modelled), first removing the callback it already holds, so that at
     * most one stays registered.
     */
    method ShowHand()
      requires Valid()
      modifies this
      ensures Valid()
      ensures handVisible && hand == AfterShowHandReplacing(old(hand))
      ensures hand == HandTickers(true, 1)
      ensures targetScale == old(targetScale) && currentScale == old(currentScale)
      ensures isDisabled == old(isDisabled) && animationTicker == old(animationTicker) && events == old(events)
      ensures destroyed == old(destroyed)
    {
      if hand.held {
        hand := HandTickers(false, hand.registered - 1);
      }
      hand := HandTickers(true, hand.registered + 1);
      handVisible := true;
    }

    /** Removes the held hand callback, if any, and hides the hand. */
    method HideHand()
      requires Valid()
      modifies this
      ensures Valid()
      ensures !handVisible && hand == AfterHideHand(old(hand)) && hand.registered == 0
      ensures targetScale == old(targetScale) && currentScale == old(currentScale)
      ensures isDisabled == old(isDisabled) && animationTicker == old(animationTicker) && events == old(events)
      ensures destroyed == old(destroyed)
    {
      if hand.held {
        hand := HandTickers(false, hand.registered - 1);
      }
      handVisible := false;
    }

    /** Teardown removes the press-scale callback and the hand callback. */
    method Destroy()
      requires Valid()
      modifies this
      ensures Valid()
      ensures destroyed && !animationTicker && !hand.held && !handVisible
      ensures hand == AfterHideHand(old(hand)) && hand.registered == 0
      ensures events == old(events) && targetScale == old(targetScale) && currentScale == old(currentScale)
      ensures isDisabled == old(isDisabled)
    {
      if animationTicker {
        animationTicker := false;
      }
      HideHand();
      destroyed := true;
    }
  }
}

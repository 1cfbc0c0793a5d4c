/**
 * The scale factor that makes an element fit a share of the screen, along one
 * axis, both axes or none, optionally never growing the element beyond its size.
 */
module Fitting {

  datatype ScaleMode = Both | Width | Height | None

  /** The options object with every optional field filled in. */
  datatype FitOptions = FitOptions(
    elementWidth: real,
    elementHeight: real,
    screenWidth: real,
    screenHeight: real,
    maxRatioWidth: real,
    maxRatioHeight: real,
    originalScale: real,
    mode: ScaleMode,
    allowUpscale: bool)

  /** The options as a caller that passes only the four sizes gets them. */
  function WithDefaults(elementWidth: real, elementHeight: real, screenWidth: real, screenHeight: real): FitOptions
  {
    FitOptions(elementWidth, elementHeight, screenWidth, screenHeight, 1.0, 1.0, 1.0, Both, false)
  }

  function Min(a: real, b: real): real
  {
    if a <= b then a else b
  }

  /** The ratios divide by the element's size along the axes the mode uses. */
  predicate Divisible(o: FitOptions)
  {
    && (o.mode == Width || o.mode == Both ==> o.elementWidth != 0.0)
    && (o.mode == Height || o.mode == Both ==> o.elementHeight != 0.0)
  }

  function WidthRatio(o: FitOptions): real
    requires o.elementWidth != 0.0
  {
    o.screenWidth * o.maxRatioWidth / o.elementWidth
  }

  function HeightRatio(o: FitOptions): real
    requires o.elementHeight != 0.0
  {
    o.screenHeight * o.maxRatioHeight / o.elementHeight
  }

  /** The unclamped ratio the mode selects. */
  function RawScale(o: FitOptions): real
    requires o.mode != None && Divisible(o)
  {
    match o.mode
    case Width => WidthRatio(o)
    case Height => HeightRatio(o)
    case Both => Min(WidthRatio(o), HeightRatio(o))
  }

  function FitToScreen(o: FitOptions): (r: real)
    requires Divisible(o)
    ensures o.mode == None ==> r == (if o.originalScale == 0.0 then 1.0 else o.originalScale)
    ensures o.mode != None && !o.allowUpscale ==> r <= 1.0 && r <= RawScale(o)
    ensures o.mode != None && !o.allowUpscale ==> (r == 1.0 || r == RawScale(o))
    ensures o.mode != None && o.allowUpscale ==> r == RawScale(o)
  {
    if o.mode == None then
      if o.originalScale == 0.0 then 1.0 else o.originalScale
    else
      var scale := RawScale(o);
      if !o.allowUpscale then Min(scale, 1.0) else scale
  }

  /** Fitting both axes is at most what fitting either axis alone allows. */
  lemma BothIsTightest(o: FitOptions)
    requires o.elementWidth != 0.0 && o.elementHeight != 0.0
    ensures FitToScreen(o.(mode := Both)) <= FitToScreen(o.(mode := Width))
    ensures FitToScreen(o.(mode := Both)) <= FitToScreen(o.(mode := Height))
    ensures FitToScreen(o.(mode := Both)) == Min(FitToScreen(o.(mode := Width)), FitToScreen(o.(mode := Height)))
  {
    var both, width, height := o.(mode := Both), o.(mode := Width), o.(mode := Height);
    assert WidthRatio(both) == WidthRatio(width) == RawScale(width);
    assert HeightRatio(both) == HeightRatio(height) == RawScale(height);
    assert RawScale(both) == Min(RawScale(width), RawScale(height));
  }

  /** Mode 'width' reads only the width inputs: the height inputs may be anything, zero included. */
  lemma WidthModeIgnoresHeight(o: FitOptions, p: FitOptions)
    requires o.elementWidth != 0.0 && p.elementWidth != 0.0
    requires o.allowUpscale == p.allowUpscale
    requires o.elementWidth == p.elementWidth && o.screenWidth == p.screenWidth && o.maxRatioWidth == p.maxRatioWidth
    ensures FitToScreen(o.(mode := Width)) == FitToScreen(p.(mode := Width))
  {
    assert RawScale(o.(mode := Width)) == WidthRatio(o) == WidthRatio(p) == RawScale(p.(mode := Width));
  }

  /** Mode 'height' reads only the height inputs: the width inputs may be anything, zero included. */
  lemma HeightModeIgnoresWidth(o: FitOptions, p: FitOptions)
    requires o.elementHeight != 0.0 && p.elementHeight != 0.0
    requires o.allowUpscale == p.allowUpscale
    requires o.elementHeight == p.elementHeight && o.screenHeight == p.screenHeight && o.maxRatioHeight == p.maxRatioHeight
    ensures FitToScreen(o.(mode := Height)) == FitToScreen(p.(mode := Height))
  {
    assert RawScale(o.(mode := Height)) == HeightRatio(o) == HeightRatio(p) == RawScale(p.(mode := Height));
  }

  /** With only the sizes given, the result is the tighter axis ratio, capped at 1. */
  lemma DefaultsFitBothAxesWithoutUpscale(ew: real, eh: real, sw: real, sh: real)
    requires ew != 0.0 && eh != 0.0
    ensures FitToScreen(WithDefaults(ew, eh, sw, sh)) == Min(Min(sw / ew, sh / eh), 1.0)
  {
  }

  /** Positive sizes, ratios and original scale give a positive scale. */
  lemma PositiveInputsGivePositiveScale(o: FitOptions)
    requires o.elementWidth > 0.0 && o.elementHeight > 0.0
    requires o.screenWidth > 0.0 && o.screenHeight > 0.0
    requires o.maxRatioWidth > 0.0 && o.maxRatioHeight > 0.0
    requires o.originalScale > 0.0
    ensures FitToScreen(o) > 0.0
  {
    if o.mode != None {
      var w := o.screenWidth * o.maxRatioWidth;
      var h := o.screenHeight * o.maxRatioHeight;
      assert w > 0.0 && h > 0.0;
      assert WidthRatio(o) > 0.0 && HeightRatio(o) > 0.0;
    }
  }
}

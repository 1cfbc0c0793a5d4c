/**
 * The shared viewport state: the last width and height given by the layout
 * owner, and the orientation and device buckets derived from them.
 */
module Screen {

  /** Width limits of the device buckets, in CSS pixels. */
  const MOBILE_BELOW: int := 768
  const MOBILE_XS_UP_TO: int := 360
  const DESKTOP_FROM: int := 1024

  datatype ScreenType = Mobile | Tablet | Desktop
  datatype Orientation = Landscape | Portrait

  class ScreenAdapter {
    var width: int
    var height: int

    /** A fresh adapter reports a 0 by 0 viewport until the first update. */
    constructor ()
      ensures width == 0 && height == 0
    {
      width := 0;
      height := 0;
    }

    /** Records the new viewport size and nothing else. */
    method UpdateDimensions(w: int, h: int)
      modifies this
      ensures width == w && height == h
    {
      width := w;
      height := h;
    }

    function IsLandscape(): (r: bool)
      reads this
      ensures r ==> width != height
    {
      width > height
    }

    function IsPortrait(): (r: bool)
      reads this
      ensures r ==> width != height
    {
      height > width
    }

    function IsMobile(): (r: bool)
      reads this
      ensures r ==> width < DESKTOP_FROM
    {
      width < MOBILE_BELOW
    }

    function IsMobileXs(): (r: bool)
      reads this
      ensures r ==> IsMobile()
    {
      width <= MOBILE_XS_UP_TO
    }

    function IsTablet(): (r: bool)
      reads this
      ensures r ==> !IsMobile()
    {
      MOBILE_BELOW <= width < DESKTOP_FROM
    }

    function IsDesktop(): (r: bool)
      reads this
      ensures r ==> !IsMobile() && !IsTablet()
    {
      width >= DESKTOP_FROM
    }

    /** The device bucket is the one whose predicate holds. */
    function GetScreenType(): (r: ScreenType)
      reads this
      ensures r == Mobile <==> IsMobile()
      ensures r == Tablet <==> IsTablet()
      ensures r == Desktop <==> IsDesktop()
    {
      if IsMobile() then Mobile
      else if IsTablet() then Tablet
      else Desktop
    }

    /** A square viewport counts as portrait. */
    function GetOrientation(): (r: Orientation)
      reads this
      ensures r == Landscape <==> width > height
      ensures width == height ==> r == Portrait
    {
      if IsLandscape() then Landscape else Portrait
    }

    /** Orientation is never both landscape and portrait, and neither for a square. */
    lemma OrientationExclusive()
      ensures !(IsLandscape() && IsPortrait())
      ensures width == height ==> !IsLandscape() && !IsPortrait()
      ensures width != height ==> IsLandscape() || IsPortrait()
    {
    }

    /** Every width falls in exactly one of the three device buckets. */
    lemma DeviceBucketsPartition()
      ensures IsMobile() || IsTablet() || IsDesktop()
      ensures !(IsMobile() && IsTablet()) && !(IsMobile() && IsDesktop()) && !(IsTablet() && IsDesktop())
    {
    }
  }
}

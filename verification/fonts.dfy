/**
 * The font families the presentation knows, their loading configuration and
 * the CSS font stacks built from them. Loading the fonts is not modelled.
 */
module Fonts {

  datatype FontFamily = Marvin | Arial | SansSerif

  /** The CSS family name of each font. */
  function Name(f: FontFamily): string
  {
    match f
    case Marvin => "Marvin"
    case Arial => "Arial"
    case SansSerif => "sans-serif"
  }

  datatype FontConfig = FontConfig(family: FontFamily, url: string, weight: string, style: string)

  /** The bundled font file for Marvin; the bundler turns it into a non-empty URL. */
  const MARVIN_FONT_URL: string := "assets/Marvin.ttf"

  /** The configuration table, one entry per family; system fonts have no file. */
  function FontConfigs(f: FontFamily): (c: FontConfig)
    ensures c.family == f
    ensures c.url != "" <==> f == Marvin
    ensures c.weight == "400" && c.style == "normal"
  {
    match f
    case Marvin => FontConfig(Marvin, MARVIN_FONT_URL, "400", "normal")
    case Arial => FontConfig(Arial, "", "400", "normal")
    case SansSerif => FontConfig(SansSerif, "", "400", "normal")
  }

  const SEPARATOR: string := ", "

  const DEFAULT_FONT_STACK: string := Name(Marvin) + SEPARATOR + Name(Arial) + SEPARATOR + Name(SansSerif)

  /** The fallback families, in this order. */
  const FALLBACK_ORDER: seq<FontFamily> := [Arial, SansSerif]

  /** The elements of `fs` other than `f`, in their order. */
  function Without(fs: seq<FontFamily>, f: FontFamily): (r: seq<FontFamily>)
    ensures f !in r
    ensures forall g :: g in r <==> g in fs && g != f
    ensures |r| <= |fs|
  {
    if fs == [] then []
    else if fs[0] == f then Without(fs[1..], f)
    else [fs[0]] + Without(fs[1..], f)
  }

  /** The names of `fs` separated by `sep`, like JavaScript's `Array.join`. */
  function Join(fs: seq<FontFamily>, sep: string): string
  {
    if fs == [] then ""
    else if |fs| == 1 then Name(fs[0])
    else Name(fs[0]) + sep + Join(fs[1..], sep)
  }

  function Fallbacks(primary: FontFamily): (r: seq<FontFamily>)
    ensures primary !in r
    ensures forall g :: g in r <==> g in FALLBACK_ORDER && g != primary
  {
    Without(FALLBACK_ORDER, primary)
  }

  /** The families in a stack, in order: the primary, then its fallbacks. */
  function StackFamilies(primary: FontFamily): seq<FontFamily>
  {
    [primary] + Fallbacks(primary)
  }

  /**
   * The primary family followed by the remaining fallbacks: the stack is the
   * whole family list joined with ", ", and it starts with the primary's name.
   */
  function GetFontStack(primary: FontFamily := Marvin): (r: string)
    ensures r == Join(StackFamilies(primary), SEPARATOR)
    ensures |Name(primary) + SEPARATOR| < |r| && r[..|Name(primary) + SEPARATOR|] == Name(primary) + SEPARATOR
  {
    var fallbacks := Without(FALLBACK_ORDER, primary);
    assert |fallbacks| >= 1 by {
      assert (if primary == Arial then SansSerif else Arial) in fallbacks;
    }
    assert StackFamilies(primary)[1..] == fallbacks;
    Name(primary) + SEPARATOR + Join(fallbacks, SEPARATOR)
  }

  /** How many times `f` occurs in `fs`. */
  function Occurrences(fs: seq<FontFamily>, f: FontFamily): nat
  {
    if fs == [] then 0 else (if fs[0] == f then 1 else 0) + Occurrences(fs[1..], f)
  }

  lemma {:induction false} NotInNoOccurrence(fs: seq<FontFamily>, f: FontFamily)
    requires f !in fs
    ensures Occurrences(fs, f) == 0
  {
    if fs != [] {
      NotInNoOccurrence(fs[1..], f);
    }
  }

  /** A family that occurs at one position and nowhere else occurs exactly once. */
  lemma {:induction false} OccursOnce(before: seq<FontFamily>, f: FontFamily, after: seq<FontFamily>)
    requires f !in before && f !in after
    ensures Occurrences(before + [f] + after, f) == 1
    decreases |before|
  {
    var fs := before + [f] + after;
    if before == [] {
      assert fs[1..] == after;
      NotInNoOccurrence(after, f);
    } else {
      assert fs[1..] == before[1..] + [f] + after;
      OccursOnce(before[1..], f, after);
    }
  }

  /**
   * The primary family appears exactly once in its stack, and so does every
   * fallback family: the primary is not repeated as a fallback.
   */
  lemma {:induction false} StackListsEachFamilyOnce(primary: FontFamily, f: FontFamily)
    requires f == primary || f in FALLBACK_ORDER
    ensures Occurrences(StackFamilies(primary), f) == 1
  {
    var fb := Fallbacks(primary);
    if f == primary {
      assert StackFamilies(primary) == [] + [f] + fb;
      OccursOnce([], f, fb);
    } else if primary == Marvin {
      assert fb == [Arial, SansSerif];
      if f == Arial {
        assert StackFamilies(primary) == [Marvin] + [f] + [SansSerif];
        OccursOnce([Marvin], f, [SansSerif]);
      } else {
        assert StackFamilies(primary) == [Marvin, Arial] + [f] + [];
        OccursOnce([Marvin, Arial], f, []);
      }
    } else if primary == Arial {
      assert fb == [SansSerif];
      assert StackFamilies(primary) == [Arial] + [f] + [];
      OccursOnce([Arial], f, []);
    } else {
      assert fb == [Arial];
      assert StackFamilies(primary) == [SansSerif] + [f] + [];
      OccursOnce([SansSerif], f, []);
    }
  }

  /** The fallbacks keep their fixed order: Arial before sans-serif whenever both remain. */
  lemma FallbackOrderIsKept(primary: FontFamily)
    ensures primary == Marvin ==> Fallbacks(primary) == [Arial, SansSerif]
    ensures primary == Arial ==> Fallbacks(primary) == [SansSerif]
    ensures primary == SansSerif ==> Fallbacks(primary) == [Arial]
  {
  }

  /** Without an argument the stack is the default stack "Marvin, Arial, sans-serif". */
  lemma DefaultStackIsMarvinStack()
    ensures GetFontStack() == DEFAULT_FONT_STACK
    ensures DEFAULT_FONT_STACK == "Marvin, Arial, sans-serif"
  {
    FallbackOrderIsKept(Marvin);
  }

  lemma ArialStack()
    ensures GetFontStack(Arial) == "Arial, sans-serif"
  {
    FallbackOrderIsKept(Arial);
  }
}

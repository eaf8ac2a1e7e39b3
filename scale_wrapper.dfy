/**
 * The viewport scale rule of the ScaleWrapper component: below the desktop
 * design width (1440 px) and above the mobile breakpoint (768 px) the page is
 * laid out at 1440 px and scaled down to the window; elsewhere it is shown
 * unscaled and unwrapped.
 */
module ScaleWrapper {

  /** Width of the desktop design, in CSS pixels. */
  const BaseWidth: real := 1440.0
  /** Mobile breakpoint, in CSS pixels. */
  const MobileBreakpoint: real := 768.0

  /** The scale held in component state before the first measurement. */
  const InitialScale: real := 1.0

  /** The scale chosen for a window of the given inner width. */
  function Scale(width: real): (s: real)
    ensures MobileBreakpoint / BaseWidth < s <= 1.0
  {
    if width < BaseWidth && width > MobileBreakpoint then width / BaseWidth else 1.0
  }

  /** What the component renders for a given scale. */
  datatype Layout =
    | Unwrapped
    | Wrapped(widthPx: real, heightPercent: real, transformScale: real)

  /** Children are rendered bare exactly when the scale is 1; otherwise they sit
      in a 1440 px wide box, scaled from its top-left corner, whose height is
      stretched by 1/scale to cover the viewport. */
  function Render(scale: real): (l: Layout)
    requires scale > 0.0
    ensures l.Unwrapped? <==> scale == 1.0
    ensures l.Wrapped? ==> l.widthPx == BaseWidth && l.transformScale == scale
    ensures l.Wrapped? ==> l.widthPx * l.transformScale == BaseWidth * scale
    ensures l.Wrapped? ==> l.heightPercent * l.transformScale == 100.0
  {
    if scale == 1.0 then Unwrapped else Wrapped(BaseWidth, 100.0 / scale, scale)
  }

  /** Before any measurement nothing is wrapped. */
  lemma InitialIsUnwrapped()
    ensures Render(InitialScale) == Unwrapped
  {
  }

  /** Inside the band the scaled 1440 px layout is exactly as wide as the window. */
  lemma InBandFillsWindow(width: real)
    requires MobileBreakpoint < width < BaseWidth
    ensures Scale(width) * BaseWidth == width
    ensures Scale(width) < 1.0
  {
  }

  /** Outside the band the scale is exactly 1. */
  lemma OutOfBandIsUnit(width: real)
    requires width <= MobileBreakpoint || width >= BaseWidth
    ensures Scale(width) == 1.0
  {
  }

  /** The wrapper is used exactly when the width lies strictly inside the band. */
  lemma WrappedIffInBand(width: real)
    ensures Render(Scale(width)).Wrapped? <==> MobileBreakpoint < width < BaseWidth
  {
    if MobileBreakpoint < width < BaseWidth {
      InBandFillsWindow(width);
    }
  }

  /** In the band the compensating wrapper height lies strictly between 100 %
      and 187.5 % (= 1440 / 768 of the viewport). */
  lemma WrapperHeightBounds(width: real)
    requires MobileBreakpoint < width < BaseWidth
    ensures Render(Scale(width)).Wrapped?
    ensures 100.0 < Render(Scale(width)).heightPercent < 187.5
  {
    var s := Scale(width);
    InBandFillsWindow(width);
    assert 100.0 / s == 144000.0 / width;
  }
}

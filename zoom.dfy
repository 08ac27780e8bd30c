/** The zoom buttons of the toolbar. The scale is kept in integer tenths:
    0.5 is 5, 2.0 is 20 and one press of a zoom button moves it by 1. */
module Zoom {

  const MinScale: int := 5
  const MaxScale: int := 20
  const ZoomStep: int := 1
  const DefaultScale: int := 10

  /** The scale lies within the bounds the zoom buttons keep to. */
  predicate InRange(scale: int) {
    MinScale <= scale <= MaxScale
  }

  /** The "-" button: one step smaller, but never below the floor. */
  function ZoomOut(scale: int): (r: int)
    ensures r >= MinScale
    ensures r >= scale - ZoomStep
    ensures r < scale || scale <= MinScale
    ensures r == scale - ZoomStep || r == MinScale
    ensures InRange(scale) ==> InRange(r)
  {
    if scale - ZoomStep < MinScale then MinScale else scale - ZoomStep
  }

  /** The "+" button: one step larger, but never above the ceiling. */
  function ZoomIn(scale: int): (r: int)
    ensures r <= MaxScale
    ensures r <= scale + ZoomStep
    ensures r > scale || scale >= MaxScale
    ensures r == scale + ZoomStep || r == MaxScale
    ensures InRange(scale) ==> InRange(r)
    ensures MinScale <= scale < MaxScale ==> ZoomOut(r) == scale
  {
    if scale + ZoomStep > MaxScale then MaxScale else scale + ZoomStep
  }
}

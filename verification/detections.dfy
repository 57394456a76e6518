/** Inputs of the overlay renderer: the detector's output records and the
    drawing context they are rendered into. */
module Detections {

  /** A bounding box as the detector reports it: the top-left corner
      `(x, y)` and the extent `(width, height)`, in source-frame pixels.
      Coordinates are exact reals; the detector's floating-point rounding is
      not modelled. */
  datatype BBox = BBox(x: real, y: real, width: real, height: real)

  /** One detected object: its class label, the detector's confidence and
      its bounding box. */
  datatype Detection = Detection(className: string, score: real, bbox: BBox)

  /** The context argument of the renderer. The source accepts a 2D context,
      `null` or `undefined`; a present context is read only for the width of
      the canvas it belongs to, an unsigned integer number of pixels. */
  datatype Context = Null | Undefined | Context2D(canvasWidth: nat)
  {
    /** JavaScript truthiness of the argument: only a real context is truthy. */
    predicate Present() {
      Context2D?
    }

    /** The canvas width as a coordinate. */
    function Width(): real
      requires Present()
    {
      canvasWidth as real
    }
  }

  /** Two detections that differ at most in their confidence score. */
  predicate SameButScore(a: Detection, b: Detection) {
    a.className == b.className && a.bbox == b.bbox
  }
}

# Detection overlay renderer

A Dafny model of `drawOnCanvas`, the overlay renderer of a webcam
object-detection app. For every detection it paints a translucent rounded
rectangle over the bounding box — red (`#FF0F0F`) for the class `"person"`,
green (`#00B612`) for every other class, at 40% opacity — and then the class
name in opaque white 12px Courier New, 10 pixels right of and 20 pixels below
the box's top-left corner. When the video is shown mirrored, each box starts at
`W - x` with width `-width`, so it covers the reflection of the detected
columns about the canvas's centre line, and the label moves to
`W - x - width + 10`. Without a 2D context (`null` or `undefined`) nothing is
painted.

The model has two layers:

- `Overlay.DrawOnCanvas` (`overlay.dfy`) is the renderer as a pure function
  from `(mirrored, context, detections)` to the list of paint commands it
  performs, in order: `FillRoundRect(colour, alpha, x, y, w, h, radius)` and
  `FillText(text, font, colour, alpha, x, y)`.
- `DrawCalls.Calls` (`draw_calls.dfy`) is the same renderer statement by
  statement: the nine context calls and property assignments it issues per
  detection. `Canvas2D` (`canvas2d.dfy`) gives those calls an abstract
  meaning: fill style, global alpha and font are sticky state, `beginPath`
  empties the current path, `roundRect` extends it, and `fill` and
  `fillText` paint with the state in force. `DrawCalls.CallsPaintCommands`
  proves that the call sequence paints exactly the commands of the first
  layer, whatever fill style, global alpha, font and current path the
  context starts with. So none of these four, and no earlier rectangle,
  leaks from one detection into the next. Other context state is not
  modelled (see "Left out").

`detections.dfy` holds the inputs. A `Detection` has a class name, a score and
a bounding box `(x, y, width, height)`. A `Context` is `Null`, `Undefined` or a
2D context whose canvas is `canvasWidth` pixels wide (a natural number).
Coordinates are exact reals.

## Model

| member | source | states |
|---|---|---|
| Overlay.BoxColour | utils/draw.ts:16 | the fill colour is `#FF0F0F` exactly when the class name is the string `"person"`, and `#00B612` otherwise |
| Overlay.Box | utils/draw.ts:15-21 | the box is a rounded-rectangle fill in the class colour (reserved exactly for `"person"`) at alpha 0.4 with radius 8; its y and height are the bounding box's in both modes; the columns it covers are the box's own columns unmirrored and their reflection about the canvas centre line mirrored |
| Overlay.Label | utils/draw.ts:26-42 | the label writes the class name in `12px Courier New`, `#FFF`, alpha 1, at y + 20 in both modes; mirrored or not, it sits 10 pixels right of the drawn rectangle's edge that corresponds to the box's leading edge: the left edge for a non-negative width, the right edge for a negative one |
| Overlay.DrawOnCanvas | utils/draw.ts:3-45 | with no context, nothing is painted; with a context, the output has exactly two commands per detection, and for the i-th detection position 2i is its box and position 2i+1 its label, in input order |
| Overlay.DrawOnCanvasAppend | utils/draw.ts:8 | rendering a concatenated batch is rendering the first part, then the second |
| Overlay.CommandStyles | utils/draw.ts:15-29 | across the whole output, even positions are rectangle fills at alpha 0.4 and radius 8, red exactly for `"person"` detections and green otherwise; odd positions are the detection's class name in white at alpha 1, whatever the class |
| Overlay.MirrorOneDetection | utils/draw.ts:19-42 | for one detection, mirroring keeps every field except x (and the rectangle's width): the box starts at `W - x` with negated width, the label moves to `W - (x + width) + 10` |
| Overlay.MirrorOnlyMovesX | utils/draw.ts:19-42 | the mirrored and unmirrored renderings of a batch have the same length and, command by command, the same kind, text, font, colour, alpha, y, height and radius |
| Overlay.ReflectInvolution | utils/draw.ts:20 | reflecting about the centre line twice gives back the interval; a column is inside an interval exactly when its mirror image is inside the reflection |
| Overlay.MirroredBoxAlignsWithVideo | utils/draw.ts:19-21 | a source column lies under a detection exactly when its mirrored on-screen position `W - p` lies under the mirrored box |
| Overlay.ScoreIgnored | utils/draw.ts:9-10 | two batches that differ only in scores are rendered identically |
| Overlay.MirroredPersonExample | utils/draw.ts:19-42 | a mirrored `"person"` at (10, 20, 50, 80) on a 640-pixel canvas is a red box from x = 630 with width -50, and a label at (590, 40) |
| DrawCalls.Calls | utils/draw.ts:8-44 | without a context no call is made on it; with one, nine calls are made per detection |
| DrawCalls.CallsPaintTwicePerDetection | utils/draw.ts:12-42 | only `fill` and `fillText` paint; the call sequence contains exactly two of them per detection with a context, and none without one |
| DrawCalls.BoxCallsPaintBox | utils/draw.ts:13-24 | from any fill style, alpha, font and path, `beginPath`, fill style, alpha, `roundRect` and `fill` paint exactly the one box, with the class colour at 0.4 |
| DrawCalls.LabelCallsPaintLabel | utils/draw.ts:26-42 | from any fill style, alpha, font and path, font, fill style, alpha and `fillText` paint exactly the label, white and opaque |
| DrawCalls.CallsPaintCommands | utils/draw.ts:8-44 | from any fill style, alpha, font and path, the whole call sequence paints exactly the commands of `Overlay.DrawOnCanvas`, in the same order |

## Left out

- `app/page.tsx`: a React component holding the `mirrored` flag and the webcam and canvas elements; it has no computable behaviour. The model takes `mirrored` as an argument.
- The sampling loop, the detector, the auto-record trigger and the recording controller are not part of this model; none of them appears in `utils/draw.ts` or `app/page.tsx`.
- Resizing the canvas to the video's dimensions is not done by `drawOnCanvas`, so it is not modelled.
- Clearing the previous frame's overlay: `drawOnCanvas` paints on top of whatever is on the canvas and never clears it. The model follows the code; clearing, if any, happens outside this function.
- Rasterisation, anti-aliasing and font rendering: paint operations are recorded as values, not rendered.
- Canvas rules that the constant arguments never reach are not modelled: `roundRect` throwing on a negative radius (the radius is always 8), and the fill style ignoring an unparsable colour (all three colours are valid). The rule that an alpha outside [0, 1] is ignored is modelled.
- JavaScript floating-point numbers: coordinates are exact reals, so IEEE rounding of `W - x - width + 10` is not modelled, and neither are non-finite coordinates (NaN or Infinity), for which the canvas's `roundRect` and `fillText` return without drawing; the model always records the paint.
- Context state other than fill style, global alpha, font and current path: the transform, clipping region, `textAlign`, `textBaseline`, `direction`, shadows, `globalCompositeOperation` and `filter` are never set by `drawOnCanvas`, so whatever an earlier drawing left in them affects what is painted. The model does not represent them, and its results about any starting state cover only the four modelled fields.
- The detector's `DetectedObject` type is reduced to the three fields the renderer reads.

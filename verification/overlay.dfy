/** The overlay renderer `drawOnCanvas`: for every detection, a translucent
    rounded rectangle in the class colour over the bounding box, then the
    class name as opaque white text near the box's top-left corner. In
    mirrored mode every x-coordinate is reflected against the canvas width so
    that the overlay lines up with the horizontally flipped video.

    The renderer is modelled as a pure function from its arguments to the
    list of paint operations it performs, in order. */
module Overlay {
  import opened Detections

  /** The class whose boxes get the reserved colour (exact string match). */
  const TriggerClass: string := "person"
  const PersonColour: string := "#FF0F0F"
  const DefaultColour: string := "#00B612"
  const LabelColour: string := "#FFF"
  const LabelFont: string := "12px Courier New"
  const BoxAlpha: real := 0.4
  const LabelAlpha: real := 1.0
  const CornerRadius: real := 8.0
  /** Offset of the label's anchor from the box's top-left corner. */
  const PaddingX: real := 10.0
  const PaddingY: real := 20.0

  /** A paint operation with the style in force when it is performed. */
  datatype Command =
    | FillRoundRect(colour: string, alpha: real, x: real, y: real, w: real, h: real, radius: real)
    | FillText(text: string, font: string, colour: string, alpha: real, x: real, y: real)

  /** A closed horizontal interval `[lo, hi]`. */
  datatype Interval = Interval(lo: real, hi: real)
  {
    predicate Contains(p: real) {
      lo <= p <= hi
    }
  }

  /** The columns a rectangle starting at `x` with signed width `w` covers:
      a negative width extends the rectangle to the left of `x`. */
  function HSpan(x: real, w: real): (s: Interval)
    ensures s.lo <= s.hi
    ensures s.hi - s.lo == if w >= 0.0 then w else -w
    ensures x == s.lo || x == s.hi
  {
    if w >= 0.0 then Interval(x, x + w) else Interval(x + w, x)
  }

  /** The reflection of an interval about the vertical line `x = width / 2`. */
  function Reflect(width: real, s: Interval): Interval {
    Interval(width - s.hi, width - s.lo)
  }

  function BoxColour(className: string): (c: string)
    ensures c == PersonColour <==> className == TriggerClass
    ensures c == PersonColour || c == DefaultColour
  {
    if className == TriggerClass then PersonColour else DefaultColour
  }

  /** The rounded rectangle drawn for one detection on a canvas `width` wide. */
  function Box(mirrored: bool, width: real, d: Detection): (r: Command)
    ensures r.FillRoundRect?
    ensures r.colour == PersonColour <==> d.className == TriggerClass
    ensures r.colour == PersonColour || r.colour == DefaultColour
    ensures r.alpha == BoxAlpha && r.radius == CornerRadius
    ensures r.y == d.bbox.y && r.h == d.bbox.height
    ensures HSpan(r.x, r.w) ==
              if mirrored then Reflect(width, HSpan(d.bbox.x, d.bbox.width))
              else HSpan(d.bbox.x, d.bbox.width)
  {
    var b := d.bbox;
    if mirrored then
      FillRoundRect(BoxColour(d.className), BoxAlpha, width - b.x, b.y, -b.width, b.height, CornerRadius)
    else
      FillRoundRect(BoxColour(d.className), BoxAlpha, b.x, b.y, b.width, b.height, CornerRadius)
  }

  /** The class-name label drawn for one detection on a canvas `width` wide. */
  function Label(mirrored: bool, width: real, d: Detection): (r: Command)
    ensures r.FillText?
    ensures r.text == d.className
    ensures r.font == LabelFont && r.colour == LabelColour && r.alpha == LabelAlpha
    ensures r.y == d.bbox.y + PaddingY
    // the label sits PaddingX right of the drawn rectangle's edge that
    // corresponds to the box's leading edge: its left edge for a box of
    // non-negative width, its right edge otherwise, in both modes
    ensures var s := HSpan(Box(mirrored, width, d).x, Box(mirrored, width, d).w);
            r.x == (if d.bbox.width >= 0.0 then s.lo else s.hi) + PaddingX
  {
    var b := d.bbox;
    var x := if mirrored then width - b.x - b.width + PaddingX else b.x + PaddingX;
    FillText(d.className, LabelFont, LabelColour, LabelAlpha, x, b.y + PaddingY)
  }

  /** `drawOnCanvas(mirrored, predictions, ctx)`: the paint operations, in
      order, performed for the detections. Every detection is visited; one
      with no context paints nothing. */
  function DrawOnCanvas(mirrored: bool, ctx: Context, predictions: seq<Detection>): (r: seq<Command>)
    ensures !ctx.Present() ==> r == []
    ensures ctx.Present() ==> |r| == 2 * |predictions|
    ensures ctx.Present() ==>
              forall i :: 0 <= i < |predictions| ==>
                r[2 * i] == Box(mirrored, ctx.Width(), predictions[i]) &&
                r[2 * i + 1] == Label(mirrored, ctx.Width(), predictions[i])
  {
    if |predictions| == 0 then
      []
    else
      var d := predictions[0];
      var painted := if ctx.Present() then [Box(mirrored, ctx.Width(), d), Label(mirrored, ctx.Width(), d)] else [];
      painted + DrawOnCanvas(mirrored, ctx, predictions[1..])
  }

  /** Rendering a batch is rendering its parts one after the other. */
  lemma {:induction false} DrawOnCanvasAppend(mirrored: bool, ctx: Context, a: seq<Detection>, b: seq<Detection>)
    ensures DrawOnCanvas(mirrored, ctx, a + b) == DrawOnCanvas(mirrored, ctx, a) + DrawOnCanvas(mirrored, ctx, b)
    decreases |a|
  {
    if |a| == 0 {
      assert a + b == b;
    } else {
      assert (a + b)[1..] == a[1..] + b;
      DrawOnCanvasAppend(mirrored, ctx, a[1..], b);
    }
  }

  /** The command at position `k` of a rendering with a context: the box of
      detection `k / 2` when `k` is even, its label when `k` is odd. */
  lemma CommandAt(mirrored: bool, ctx: Context, predictions: seq<Detection>, k: int)
    requires ctx.Present()
    requires 0 <= k < 2 * |predictions|
    ensures 0 <= k / 2 < |predictions|
    ensures k % 2 == 0 ==> DrawOnCanvas(mirrored, ctx, predictions)[k] == Box(mirrored, ctx.Width(), predictions[k / 2])
    ensures k % 2 == 1 ==> DrawOnCanvas(mirrored, ctx, predictions)[k] == Label(mirrored, ctx.Width(), predictions[k / 2])
  {
    var i := k / 2;
    assert k == 2 * i + k % 2;
  }

  /** The style a command drawn for detection `d` must have: a rectangle is
      filled red exactly for a person and green otherwise, at 40% opacity
      with radius 8; a text is the class name in opaque white. */
  predicate Styled(c: Command, d: Detection) {
    match c
    case FillRoundRect(colour, alpha, _, _, _, _, radius) =>
      alpha == 0.4 && radius == 8.0 &&
      (colour == "#FF0F0F" <==> d.className == "person") &&
      (colour != "#FF0F0F" ==> colour == "#00B612")
    case FillText(text, _, colour, alpha, _, _) =>
      text == d.className && colour == "#FFF" && alpha == 1.0
  }

  /** Even positions hold the boxes and odd positions the labels, each
      styled for its detection: the box colour depends on the class alone,
      and the label is opaque white whatever the class. */
  lemma CommandStyles(mirrored: bool, ctx: Context, predictions: seq<Detection>)
    requires ctx.Present()
    ensures var r := DrawOnCanvas(mirrored, ctx, predictions);
            forall k :: 0 <= k < |r| ==>
              (r[k].FillRoundRect? <==> k % 2 == 0) && Styled(r[k], predictions[k / 2])
  {
    var r := DrawOnCanvas(mirrored, ctx, predictions);
    forall k | 0 <= k < |r|
      ensures (r[k].FillRoundRect? <==> k % 2 == 0) && Styled(r[k], predictions[k / 2])
    {
      CommandAt(mirrored, ctx, predictions, k);
    }
  }

  /** Two paint operations that agree in everything except their
      x-coordinate and, for rectangles, their signed width. */
  predicate SameButX(a: Command, b: Command) {
    match (a, b)
    case (FillRoundRect(c, al, _, y, _, h, rad), FillRoundRect(c', al', _, y', _, h', rad')) =>
      c == c' && al == al' && y == y' && h == h' && rad == rad'
    case (FillText(t, f, c, al, _, y), FillText(t', f', c', al', _, y')) =>
      t == t' && f == f' && c == c' && al == al' && y == y'
    case _ => false
  }

  /** Mirroring one detection: the box starts at the reflection of its
      unmirrored start with its width negated; the label moves to the
      reflection of the box's right end, plus the padding. */
  lemma MirrorOneDetection(width: real, d: Detection)
    ensures SameButX(Box(false, width, d), Box(true, width, d))
    ensures SameButX(Label(false, width, d), Label(true, width, d))
    ensures Box(true, width, d).x == width - Box(false, width, d).x
    ensures Box(true, width, d).w == -Box(false, width, d).w
    ensures Label(true, width, d).x == width - (Box(false, width, d).x + Box(false, width, d).w) + PaddingX
  {
  }

  /** Mirroring moves only x-coordinates: the two renderings of a batch have
      the same commands in the same order, with the same styles, text,
      y-coordinates, heights and radii. */
  lemma MirrorOnlyMovesX(ctx: Context, predictions: seq<Detection>)
    requires ctx.Present()
    ensures |DrawOnCanvas(false, ctx, predictions)| == |DrawOnCanvas(true, ctx, predictions)|
    ensures forall k :: 0 <= k < |DrawOnCanvas(false, ctx, predictions)| ==>
              SameButX(DrawOnCanvas(false, ctx, predictions)[k], DrawOnCanvas(true, ctx, predictions)[k])
  {
    var plain := DrawOnCanvas(false, ctx, predictions);
    var flipped := DrawOnCanvas(true, ctx, predictions);
    forall k | 0 <= k < |plain|
      ensures SameButX(plain[k], flipped[k])
    {
      var i := k / 2;
      var d := predictions[i];
      MirrorOneDetection(ctx.Width(), d);
      if k == 2 * i {
        assert plain[k] == Box(false, ctx.Width(), d) && flipped[k] == Box(true, ctx.Width(), d);
      } else {
        assert plain[k] == Label(false, ctx.Width(), d) && flipped[k] == Label(true, ctx.Width(), d);
      }
    }
  }

  /** Reflecting twice about the same centre line gives back the interval,
      and a column lies in an interval exactly when its mirror image lies in
      the reflected one. */
  lemma ReflectInvolution(width: real, s: Interval, p: real)
    ensures Reflect(width, Reflect(width, s)) == s
    ensures s.Contains(p) <==> Reflect(width, s).Contains(width - p)
  {
  }

  /** The mirrored video shows source column `p` at `width - p`. A source
      column lies under a detection's box exactly when its on-screen image
      lies under the box the renderer draws in mirrored mode, so the overlay
      stays aligned with the flipped feed. */
  lemma MirroredBoxAlignsWithVideo(width: real, d: Detection, p: real)
    ensures var r := Box(true, width, d);
            HSpan(d.bbox.x, d.bbox.width).Contains(p) <==> HSpan(r.x, r.w).Contains(width - p)
  {
    ReflectInvolution(width, HSpan(d.bbox.x, d.bbox.width), p);
  }

  /** The confidence score never influences what is drawn. */
  lemma {:induction false} ScoreIgnored(mirrored: bool, ctx: Context, a: seq<Detection>, b: seq<Detection>)
    requires |a| == |b|
    requires forall i :: 0 <= i < |a| ==> SameButScore(a[i], b[i])
    ensures DrawOnCanvas(mirrored, ctx, a) == DrawOnCanvas(mirrored, ctx, b)
    decreases |a|
  {
    if |a| > 0 {
      assert SameButScore(a[0], b[0]);
      ScoreIgnored(mirrored, ctx, a[1..], b[1..]);
    }
  }

  /** A mirrored person box on a 640-pixel canvas: the rectangle starts at
      640 - 10 = 630 and extends 50 pixels leftward, and the label is at
      630 - 50 + 10 = 590. */
  lemma MirroredPersonExample()
    ensures DrawOnCanvas(true, Context2D(640), [Detection("person", 0.9, BBox(10.0, 20.0, 50.0, 80.0))]) ==
            [FillRoundRect("#FF0F0F", 0.4, 630.0, 20.0, -50.0, 80.0, 8.0),
             FillText("person", "12px Courier New", "#FFF", 1.0, 590.0, 40.0)]
  {
  }
}

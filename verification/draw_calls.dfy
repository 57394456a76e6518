/** `drawOnCanvas` statement by statement: the context calls it issues for
    each detection, in the order it issues them, and the proof that these
    calls paint exactly the operations `Overlay.DrawOnCanvas` lists, whatever
    fill style, global alpha, font and current path an earlier drawing left
    the context with (the only context state `Canvas2D` models). */
module DrawCalls {
  import opened Detections
  import opened Overlay
  import opened Canvas2D

  /** The calls for the box: begin a new path, set the class colour and the
      box opacity, add the rounded rectangle (reflected when mirrored), fill. */
  function BoxCalls(mirrored: bool, width: real, d: Detection): seq<Call> {
    var b := d.bbox;
    [ BeginPath,
      SetFillStyle(if d.className == "person" then "#FF0F0F" else "#00B612"),
      SetGlobalAlpha(0.4),
      if mirrored then RoundRect(width - b.x, b.y, -b.width, b.height, 8.0)
      else RoundRect(b.x, b.y, b.width, b.height, 8.0),
      Canvas2D.Fill ]
  }

  /** The calls for the label: set the font, white and full opacity, then
      write the class name offset by the padding (from the reflected box
      edge when mirrored). */
  function LabelCalls(mirrored: bool, width: real, d: Detection): seq<Call> {
    var b := d.bbox;
    var paddingX := 10.0;
    var paddingY := 20.0;
    [ SetFont("12px Courier New"),
      SetFillStyle("#FFF"),
      SetGlobalAlpha(1.0),
      if mirrored then Canvas2D.FillText(d.className, width - b.x - b.width + paddingX, b.y + paddingY)
      else Canvas2D.FillText(d.className, b.x + paddingX, b.y + paddingY) ]
  }

  /** Every call `drawOnCanvas` makes on its context, in order. */
  function Calls(mirrored: bool, ctx: Context, predictions: seq<Detection>): (r: seq<Call>)
    ensures !ctx.Present() ==> r == []
    ensures ctx.Present() ==> |r| == 9 * |predictions|
  {
    if |predictions| == 0 then
      []
    else
      var d := predictions[0];
      var issued := if ctx.Present() then BoxCalls(mirrored, ctx.Width(), d) + LabelCalls(mirrored, ctx.Width(), d) else [];
      issued + Calls(mirrored, ctx, predictions[1..])
  }

  /** What an abstract paint command looks like on the context: a rectangle
      fill paints a path made of that one rounded rectangle. */
  function AsPaint(c: Command): Paint {
    match c
    case FillRoundRect(colour, alpha, x, y, w, h, radius) => PaintPath(colour, alpha, [RoundRectPath(x, y, w, h, radius)])
    case FillText(text, font, colour, alpha, x, y) => PaintText(text, font, colour, alpha, x, y)
  }

  function AsPaints(cs: seq<Command>): seq<Paint> {
    seq(|cs|, i requires 0 <= i < |cs| => AsPaint(cs[i]))
  }

  /** The box calls paint the box alone: `beginPath` discards every earlier
      rectangle, and the style is set before the fill. */
  lemma BoxCallsPaintBox(s: State, mirrored: bool, width: real, d: Detection)
    ensures Run(s, BoxCalls(mirrored, width, d)).painted == [AsPaint(Box(mirrored, width, d))]
  {
    var calls := BoxCalls(mirrored, width, d);
    var s1 := Step(s, calls[0]).state;
    var s2 := Step(s1, calls[1]).state;
    var s3 := Step(s2, calls[2]).state;
    var s4 := Step(s3, calls[3]).state;
    RunFirst(s4, calls[4..]);
    RunFirst(s3, calls[3..]);
    assert calls[3..][1..] == calls[4..];
    RunFirst(s2, calls[2..]);
    assert calls[2..][1..] == calls[3..];
    RunFirst(s1, calls[1..]);
    assert calls[1..][1..] == calls[2..];
    RunFirst(s, calls);
    assert s4.path == [RoundRectPath(Box(mirrored, width, d).x, d.bbox.y, Box(mirrored, width, d).w, d.bbox.height, 8.0)];
  }

  /** The label calls paint the label alone, white and opaque whatever the
      box calls left behind. */
  lemma LabelCallsPaintLabel(s: State, mirrored: bool, width: real, d: Detection)
    ensures Run(s, LabelCalls(mirrored, width, d)).painted == [AsPaint(Label(mirrored, width, d))]
  {
    var calls := LabelCalls(mirrored, width, d);
    var s1 := Step(s, calls[0]).state;
    var s2 := Step(s1, calls[1]).state;
    var s3 := Step(s2, calls[2]).state;
    RunFirst(s3, calls[3..]);
    RunFirst(s2, calls[2..]);
    assert calls[2..][1..] == calls[3..];
    RunFirst(s1, calls[1..]);
    assert calls[1..][1..] == calls[2..];
    RunFirst(s, calls);
  }

  lemma AsPaintsAppend(a: seq<Command>, b: seq<Command>)
    ensures AsPaints(a + b) == AsPaints(a) + AsPaints(b)
  {
    assert |AsPaints(a + b)| == |AsPaints(a) + AsPaints(b)|;
    forall i | 0 <= i < |a + b|
      ensures AsPaints(a + b)[i] == (AsPaints(a) + AsPaints(b))[i]
    {
      if i < |a| {
        assert (a + b)[i] == a[i];
      } else {
        assert (a + b)[i] == b[i - |a|];
      }
    }
  }

  /** The calls for a non-empty batch on a present context: the first
      detection's box and label calls, then the rest. */
  lemma CallsFirst(mirrored: bool, ctx: Context, predictions: seq<Detection>)
    requires ctx.Present() && |predictions| > 0
    ensures Calls(mirrored, ctx, predictions) ==
            BoxCalls(mirrored, ctx.Width(), predictions[0]) +
            (LabelCalls(mirrored, ctx.Width(), predictions[0]) + Calls(mirrored, ctx, predictions[1..]))
    ensures DrawOnCanvas(mirrored, ctx, predictions) ==
            [Box(mirrored, ctx.Width(), predictions[0]), Label(mirrored, ctx.Width(), predictions[0])] +
            DrawOnCanvas(mirrored, ctx, predictions[1..])
  {
  }

  /** Whatever fill style, global alpha, font and current path the context
      starts with, the calls `drawOnCanvas` issues paint exactly the abstract
      commands, in the same order. */
  lemma {:induction false} CallsPaintCommands(s: State, mirrored: bool, ctx: Context, predictions: seq<Detection>)
    ensures Run(s, Calls(mirrored, ctx, predictions)).painted == AsPaints(DrawOnCanvas(mirrored, ctx, predictions))
    decreases |predictions|
  {
    if |predictions| == 0 || !ctx.Present() {
      assert Calls(mirrored, ctx, predictions) == [];
      assert DrawOnCanvas(mirrored, ctx, predictions) == [];
    } else {
      var d := predictions[0];
      var w := ctx.Width();
      var box := BoxCalls(mirrored, w, d);
      var text := LabelCalls(mirrored, w, d);
      var rest := Calls(mirrored, ctx, predictions[1..]);
      CallsFirst(mirrored, ctx, predictions);
      RunAppend(s, box, text + rest);
      var s1 := Run(s, box).state;
      RunAppend(s1, text, rest);
      var s2 := Run(s1, text).state;
      BoxCallsPaintBox(s, mirrored, w, d);
      LabelCallsPaintLabel(s1, mirrored, w, d);
      CallsPaintCommands(s2, mirrored, ctx, predictions[1..]);
      AsPaintsAppend([Box(mirrored, w, d), Label(mirrored, w, d)], DrawOnCanvas(mirrored, ctx, predictions[1..]));
    }
  }

  /** Only `fill` and `fillText` paint, and `drawOnCanvas` calls each of them
      once per detection when it has a context, and never otherwise. */
  lemma CallsPaintTwicePerDetection(mirrored: bool, ctx: Context, predictions: seq<Detection>)
    ensures PaintCount(Calls(mirrored, ctx, predictions)) == if ctx.Present() then 2 * |predictions| else 0
  {
    var s := State("", 1.0, "", []);
    CallsPaintCommands(s, mirrored, ctx, predictions);
  }
}

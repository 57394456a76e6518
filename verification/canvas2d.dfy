/** An abstract model of the part of an HTML canvas 2D rendering context that
    the overlay renderer uses: the drawing state (fill style, global alpha,
    font), the current path built from rounded rectangles, and the paint
    operations `fill` and `fillText` perform with that state. Rasterisation
    is not modelled: a paint operation is recorded, not rendered. */
module Canvas2D {

  /** A subpath added by `roundRect(x, y, w, h, radius)`. */
  datatype Subpath = RoundRectPath(x: real, y: real, w: real, h: real, radius: real)

  /** A method call on the context, or an assignment to one of its state
      properties. */
  datatype Call =
    | BeginPath
    | SetFillStyle(style: string)
    | SetGlobalAlpha(alpha: real)
    | RoundRect(x: real, y: real, w: real, h: real, radius: real)
    | Fill
    | SetFont(font: string)
    | FillText(text: string, x: real, y: real)

  /** The drawing state and the current path. */
  datatype State = State(fillStyle: string, globalAlpha: real, font: string, path: seq<Subpath>)

  /** What a painting call puts on the canvas, with the style in force. */
  datatype Paint =
    | PaintPath(colour: string, alpha: real, path: seq<Subpath>)
    | PaintText(text: string, font: string, colour: string, alpha: real, x: real, y: real)

  /** The state after some calls and what they painted, in order. */
  datatype Outcome = Outcome(state: State, painted: seq<Paint>)

  /** Calls that put something on the canvas: `fill` and `fillText`. */
  predicate Paints(c: Call) {
    c.Fill? || c.FillText?
  }

  /** The number of painting calls in `calls`. */
  function PaintCount(calls: seq<Call>): nat {
    if |calls| == 0 then 0 else (if Paints(calls[0]) then 1 else 0) + PaintCount(calls[1..])
  }

  /** One call. Assigning a global alpha outside [0, 1] leaves the state
      unchanged, as the canvas specification requires; every other
      assignment takes effect. `beginPath` empties the current path and
      `roundRect` extends it; `fill` paints the whole current path. */
  function Step(s: State, c: Call): (o: Outcome)
    ensures Paints(c) <==> |o.painted| == 1
    ensures !Paints(c) ==> o.painted == []
    ensures c.SetFillStyle? ==> o.state.fillStyle == c.style
    ensures c.SetGlobalAlpha? && 0.0 <= c.alpha <= 1.0 ==> o.state.globalAlpha == c.alpha
    ensures !c.SetFillStyle? ==> o.state.fillStyle == s.fillStyle
    ensures !c.SetGlobalAlpha? || !(0.0 <= c.alpha <= 1.0) ==> o.state.globalAlpha == s.globalAlpha
  {
    match c
    case BeginPath => Outcome(s.(path := []), [])
    case SetFillStyle(style) => Outcome(s.(fillStyle := style), [])
    case SetGlobalAlpha(a) =>
      if 0.0 <= a <= 1.0 then Outcome(s.(globalAlpha := a), []) else Outcome(s, [])
    case RoundRect(x, y, w, h, radius) =>
      Outcome(s.(path := s.path + [RoundRectPath(x, y, w, h, radius)]), [])
    case Fill => Outcome(s, [PaintPath(s.fillStyle, s.globalAlpha, s.path)])
    case SetFont(font) => Outcome(s.(font := font), [])
    case FillText(text, x, y) => Outcome(s, [PaintText(text, s.font, s.fillStyle, s.globalAlpha, x, y)])
  }

  /** A sequence of calls, from state `s`. */
  function Run(s: State, calls: seq<Call>): (o: Outcome)
    ensures |o.painted| == PaintCount(calls)
    decreases |calls|
  {
    if |calls| == 0 then
      Outcome(s, [])
    else
      var first := Step(s, calls[0]);
      var rest := Run(first.state, calls[1..]);
      Outcome(rest.state, first.painted + rest.painted)
  }

  /** Unfolds `Run` by one call. */
  lemma RunFirst(s: State, calls: seq<Call>)
    requires |calls| > 0
    ensures Run(s, calls).state == Run(Step(s, calls[0]).state, calls[1..]).state
    ensures Run(s, calls).painted == Step(s, calls[0]).painted + Run(Step(s, calls[0]).state, calls[1..]).painted
  {
  }

  /** Running two batches of calls is running the first, then the second
      from where the first left off. */
  lemma {:induction false} RunAppend(s: State, a: seq<Call>, b: seq<Call>)
    ensures Run(s, a + b).state == Run(Run(s, a).state, b).state
    ensures Run(s, a + b).painted == Run(s, a).painted + Run(Run(s, a).state, b).painted
    decreases |a|
  {
    if |a| == 0 {
      assert a + b == b;
    } else {
      assert (a + b)[0] == a[0];
      assert (a + b)[1..] == a[1..] + b;
      RunAppend(Step(s, a[0]).state, a[1..], b);
    }
  }
}

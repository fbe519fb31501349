/** An HTML `<canvas>` element with its 2D context, as far as the browser
    watermark uses it: the bitmap size, the drawing state (styles, text
    alignment, shadow, and the transform, which here is only ever a
    translation), the `save`/`restore` stack, and the bitmap's content as the
    sequence of draw calls made since it was last cleared. Glyph shaping and
    rasterisation are not modelled. */
module Canvas2D {

  datatype TextAlign = Start | End | Left | Right | Center

  datatype TextBaseline = Top | Hanging | Middle | Alphabetic | Ideographic | Bottom

  /** The context's drawing state; `(originX, originY)` is where the current
      transform maps the point (0, 0). */
  datatype DrawState = DrawState(
    font: string, fillStyle: string, strokeStyle: string, lineWidth: real,
    shadowColor: string, shadowBlur: real,
    textAlign: TextAlign, textBaseline: TextBaseline,
    originX: real, originY: real)

  /** The state of a fresh context, and of one whose canvas was just resized. */
  const Initial := DrawState("10px sans-serif", "#000000", "#000000", 1.0,
                             "rgba(0, 0, 0, 0)", 0.0, Start, Alphabetic, 0.0, 0.0)

  /** A draw call, with the state it was made in. */
  datatype Call =
    | ImageCall(source: string, x: real, y: real, state: DrawState)
    | StrokeCall(text: string, x: real, y: real, state: DrawState)
    | FillCall(text: string, x: real, y: real, state: DrawState)

  /** The canvas point a call's `(x, y)` lands on. */
  function Anchor(c: Call): (real, real)
  {
    (c.x + c.state.originX, c.y + c.state.originY)
  }

  class Canvas {
    var width: nat
    var height: nat
    var state: DrawState
    var stack: seq<DrawState>
    var calls: seq<Call>

    /** A new canvas element: 300 by 150, blank, in the initial state. */
    constructor ()
      ensures width == 300 && height == 150
      ensures state == Initial && stack == [] && calls == []
    {
      width, height := 300, 150;
      state, stack, calls := Initial, [], [];
    }

    /** `canvas.width = w`: clears the bitmap and resets the context. */
    method SetWidth(w: nat)
      modifies this
      ensures width == w && height == old(height)
      ensures state == Initial && stack == [] && calls == []
    {
      width := w;
      state, stack, calls := Initial, [], [];
    }

    /** `canvas.height = h`: clears the bitmap and resets the context. */
    method SetHeight(h: nat)
      modifies this
      ensures height == h && width == old(width)
      ensures state == Initial && stack == [] && calls == []
    {
      height := h;
      state, stack, calls := Initial, [], [];
    }

    method SetFont(font: string)
      modifies this`state
      ensures state == old(state).(font := font)
    {
      state := state.(font := font);
    }

    method SetFillStyle(style: string)
      modifies this`state
      ensures state == old(state).(fillStyle := style)
    {
      state := state.(fillStyle := style);
    }

    method SetStrokeStyle(style: string)
      modifies this`state
      ensures state == old(state).(strokeStyle := style)
    {
      state := state.(strokeStyle := style);
    }

    /** `ctx.lineWidth = v`: zero and negative values are ignored. */
    method SetLineWidth(v: real)
      modifies this`state
      ensures state == if v > 0.0 then old(state).(lineWidth := v) else old(state)
    {
      if v > 0.0 {
        state := state.(lineWidth := v);
      }
    }

    method SetShadowColor(color: string)
      modifies this`state
      ensures state == old(state).(shadowColor := color)
    {
      state := state.(shadowColor := color);
    }

    /** `ctx.shadowBlur = v`: negative values are ignored. */
    method SetShadowBlur(v: real)
      modifies this`state
      ensures state == if v >= 0.0 then old(state).(shadowBlur := v) else old(state)
    {
      if v >= 0.0 {
        state := state.(shadowBlur := v);
      }
    }

    method SetTextAlign(align: TextAlign)
      modifies this`state
      ensures state == old(state).(textAlign := align)
    {
      state := state.(textAlign := align);
    }

    method SetTextBaseline(baseline: TextBaseline)
      modifies this`state
      ensures state == old(state).(textBaseline := baseline)
    {
      state := state.(textBaseline := baseline);
    }

    /** `ctx.translate(dx, dy)` on a transform that is a translation. */
    method Translate(dx: real, dy: real)
      modifies this`state
      ensures state == old(state).(originX := old(state).originX + dx,
                                   originY := old(state).originY + dy)
    {
      state := state.(originX := state.originX + dx, originY := state.originY + dy);
    }

    /** `ctx.save()`: pushes the drawing state. */
    method Save()
      modifies this`stack
      ensures stack == old(stack) + [state]
    {
      stack := stack + [state];
    }

    /** `ctx.restore()`: pops the drawing state; does nothing on an empty stack. */
    method Restore()
      modifies this`state, this`stack
      ensures old(stack) == [] ==> state == old(state) && stack == []
      ensures old(stack) != [] ==> state == old(stack)[|old(stack)| - 1]
                                   && stack == old(stack)[..|old(stack)| - 1]
    {
      if stack != [] {
        state := stack[|stack| - 1];
        stack := stack[..|stack| - 1];
      }
    }

    method DrawImage(source: string, x: real, y: real)
      modifies this`calls
      ensures calls == old(calls) + [ImageCall(source, x, y, state)]
    {
      calls := calls + [ImageCall(source, x, y, state)];
    }

    method StrokeText(text: string, x: real, y: real)
      modifies this`calls
      ensures calls == old(calls) + [StrokeCall(text, x, y, state)]
    {
      calls := calls + [StrokeCall(text, x, y, state)];
    }

    method FillText(text: string, x: real, y: real)
      modifies this`calls
      ensures calls == old(calls) + [FillCall(text, x, y, state)]
    {
      calls := calls + [FillCall(text, x, y, state)];
    }
  }
}

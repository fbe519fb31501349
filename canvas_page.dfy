/** The browser-only page: the chosen image is drawn on a canvas and the
    watermark is drawn over it with the 2D context, outline first and fill
    second, at an anchor and alignment chosen by the position. */
module CanvasPage {

  import opened Basics
  import opened Numerics
  import opened Decimal
  import opened Browser
  import opened Canvas2D

  const DefaultText := "NETFLIX ORIGINAL"
  const DefaultPosition := "center"
  const RedFill := "rgba(229, 9, 20, 0.8)"
  const DarkOutline := "rgba(0, 0, 0, 0.8)"
  const ShadowColor := "black"
  const ShadowBlur := 10.0

  /** `Math.floor(img.width / 20)`. */
  function FontSize(width: nat): int
  {
    Floor(width as real / 20.0)
  }

  /** `` `900 ${fontSize}px "Arial Black", Arial, sans-serif` ``. */
  function FontSpec(size: int): string
  {
    "900 " + ShowInt(size) + "px \"Arial Black\", Arial, sans-serif"
  }

  /** `img.width * 0.05`: a real margin, not rounded. */
  function Padding(width: nat): real
  {
    width as real * 0.05
  }

  /** Where the positioned text goes: alignment, the translation applied
      before drawing, and the point passed to the draw calls. */
  datatype Placement = Placement(
    align: TextAlign, baseline: TextBaseline, dx: real, dy: real, x: real, y: real)

  /** The placement for each recognised position; `None` for any other string. */
  function Place(position: string, w: nat, h: nat): Option<Placement>
  {
    var p := Padding(w);
    if position == "center" then Some(Placement(Center, Middle, w as real / 2.0, h as real / 2.0, 0.0, 0.0))
    else if position == "top-left" then Some(Placement(Left, Top, 0.0, 0.0, p, p))
    else if position == "top-right" then Some(Placement(Right, Top, 0.0, 0.0, w as real - p, p))
    else if position == "bottom-left" then Some(Placement(Left, Bottom, 0.0, 0.0, p, h as real - p))
    else if position == "bottom-right" then Some(Placement(Right, Bottom, 0.0, 0.0, w as real - p, h as real - p))
    else None
  }

  /** The drawing state once the text style is set, before the shadow is. */
  function TextStyle(w: nat): DrawState
  {
    var size := FontSize(w);
    var lineWidth := size as real / 15.0;
    Initial.(font := FontSpec(size), fillStyle := RedFill,
             lineWidth := if lineWidth > 0.0 then lineWidth else Initial.lineWidth,
             strokeStyle := DarkOutline)
  }

  /** The state once the shadow is set: the one `save` records. */
  function ShadowedStyle(w: nat): DrawState
  {
    TextStyle(w).(shadowColor := ShadowColor, shadowBlur := ShadowBlur)
  }

  /** The outline and fill of the positioned text, drawn from state `st`;
      nothing for an unrecognised position. */
  function PlacedCalls(text: string, position: string, w: nat, h: nat, st: DrawState): seq<Call>
  {
    match Place(position, w, h)
    case None => []
    case Some(pl) =>
      var placed := st.(textAlign := pl.align, textBaseline := pl.baseline,
                        originX := st.originX + pl.dx, originY := st.originY + pl.dy);
      [StrokeCall(text, pl.x, pl.y, placed), FillCall(text, pl.x, pl.y, placed)]
  }

  /** The draw calls on a canvas sized to a `w` by `h` image. */
  function WatermarkCalls(source: string, text: string, position: string, w: nat, h: nat): seq<Call>
  {
    [ImageCall(source, 0.0, 0.0, Initial), StrokeCall(text, 0.0, 0.0, TextStyle(w))]
      + PlacedCalls(text, position, w, h, ShadowedStyle(w))
  }

  /** The body of `img.onload` once the context exists: resize the canvas to
      the image, draw the image and then the watermark. */
  method DrawWatermark(canvas: Canvas, source: string, text: string, position: string, w: nat, h: nat)
    modifies canvas
    ensures canvas.width == w && canvas.height == h
    ensures canvas.calls == WatermarkCalls(source, text, position, w, h)
    ensures canvas.state == ShadowedStyle(w) && canvas.stack == []
  {
    DrawImageAndStyle(canvas, source, text, w, h);
    DrawPlaced(canvas, text, position);
  }

  /** Resize, draw the image, set the text style, draw the outline at (0, 0)
      and set the shadow. */
  method DrawImageAndStyle(canvas: Canvas, source: string, text: string, w: nat, h: nat)
    modifies canvas
    ensures canvas.width == w && canvas.height == h
    ensures canvas.calls == [ImageCall(source, 0.0, 0.0, Initial), StrokeCall(text, 0.0, 0.0, TextStyle(w))]
    ensures canvas.state == ShadowedStyle(w) && canvas.stack == []
  {
    canvas.SetWidth(w);
    canvas.SetHeight(h);
    canvas.DrawImage(source, 0.0, 0.0);

    var fontSize := FontSize(w);
    canvas.SetFont(FontSpec(fontSize));
    canvas.SetFillStyle(RedFill);
    canvas.SetLineWidth(fontSize as real / 15.0);
    canvas.SetStrokeStyle(DarkOutline);
    assert canvas.state == TextStyle(w);
    canvas.StrokeText(text, 0.0, 0.0);

    canvas.SetShadowColor(ShadowColor);
    canvas.SetShadowBlur(ShadowBlur);
  }

  /** Between `save` and `restore`: align, possibly translate, then outline and
      fill the text at the position's anchor. */
  method DrawPlaced(canvas: Canvas, text: string, position: string)
    modifies canvas`state, canvas`stack, canvas`calls
    ensures canvas.calls
         == old(canvas.calls) + PlacedCalls(text, position, canvas.width, canvas.height, old(canvas.state))
    ensures canvas.state == old(canvas.state) && canvas.stack == old(canvas.stack)
  {
    var padding := Padding(canvas.width);
    canvas.Save();

    if position == "center" {
      canvas.SetTextAlign(Center);
      canvas.SetTextBaseline(Middle);
      canvas.Translate(canvas.width as real / 2.0, canvas.height as real / 2.0);
      canvas.StrokeText(text, 0.0, 0.0);
      canvas.FillText(text, 0.0, 0.0);
    } else if position == "top-left" {
      canvas.SetTextAlign(Left);
      canvas.SetTextBaseline(Top);
      canvas.StrokeText(text, padding, padding);
      canvas.FillText(text, padding, padding);
    } else if position == "top-right" {
      canvas.SetTextAlign(Right);
      canvas.SetTextBaseline(Top);
      canvas.StrokeText(text, canvas.width as real - padding, padding);
      canvas.FillText(text, canvas.width as real - padding, padding);
    } else if position == "bottom-left" {
      canvas.SetTextAlign(Left);
      canvas.SetTextBaseline(Bottom);
      canvas.StrokeText(text, padding, canvas.height as real - padding);
      canvas.FillText(text, padding, canvas.height as real - padding);
    } else if position == "bottom-right" {
      canvas.SetTextAlign(Right);
      canvas.SetTextBaseline(Bottom);
      canvas.StrokeText(text, canvas.width as real - padding, canvas.height as real - padding);
      canvas.FillText(text, canvas.width as real - padding, canvas.height as real - padding);
    }

    canvas.Restore();
  }

  /** What `canvas.toDataURL('image/jpeg')` encodes. */
  datatype Snapshot = Snapshot(width: nat, height: nat, calls: seq<Call>)

  /** The `img.onload` callback installed by `applyWatermark`, with the values
      it closed over. */
  datatype PendingLoad = PendingLoad(canvas: Canvas, source: string, text: string, position: string)

  datatype Notice = WrongFormat | Applied

  /** The page component's state. */
  class Page {
    var selectedImage: Option<string>
    var watermarkText: string
    var position: string
    var processedImage: Option<Snapshot>
    var isProcessing: bool
    /** `canvasRef.current`. */
    var canvasRef: Canvas?
    var pending: Option<PendingLoad>
    var notices: seq<Notice>

    constructor (canvasRef: Canvas?)
      ensures selectedImage == None && processedImage == None && !isProcessing
      ensures watermarkText == DefaultText && position == DefaultPosition
      ensures this.canvasRef == canvasRef && pending == None && notices == []
    {
      selectedImage, processedImage, isProcessing := None, None, false;
      watermarkText, position := DefaultText, DefaultPosition;
      this.canvasRef, pending, notices := canvasRef, None, [];
    }

    /** `handleImageUpload`: a non-image file only raises a notice; an image
        becomes the selection (through the object URL the browser made for it)
        and the previous result is dropped. */
    method HandleImageUpload(file: Option<File>, objectUrl: string)
      modifies this
      ensures file.None? ==> unchanged(this)
      ensures file.Some? && !IsImage(file.value) ==>
        && notices == old(notices) + [WrongFormat]
        && selectedImage == old(selectedImage) && processedImage == old(processedImage)
      ensures file.Some? && IsImage(file.value) ==>
        && selectedImage == Some(objectUrl) && processedImage == None && notices == old(notices)
      ensures watermarkText == old(watermarkText) && position == old(position)
      ensures isProcessing == old(isProcessing) && canvasRef == old(canvasRef) && pending == old(pending)
    {
      if file.Some? {
        if !IsImage(file.value) {
          notices := notices + [WrongFormat];
          return;
        }
        selectedImage := Some(objectUrl);
        processedImage := None;
      }
    }

    method SetWatermarkText(text: string)
      modifies this`watermarkText
      ensures watermarkText == text
    {
      watermarkText := text;
    }

    method SetPosition(p: string)
      modifies this`position
      ensures position == p
    {
      position := p;
    }

    /** `applyWatermark`: without a selected image or a canvas it returns at
        once; otherwise it marks the page busy and starts loading the image,
        whose `onload` will draw with the current text and position. */
    method ApplyWatermark()
      modifies this`isProcessing, this`pending
      ensures selectedImage.None? || canvasRef == null ==>
        isProcessing == old(isProcessing) && pending == old(pending)
      ensures selectedImage.Some? && canvasRef != null ==>
        && isProcessing
        && pending == Some(PendingLoad(canvasRef, selectedImage.value, watermarkText, position))
    {
      if selectedImage.None? || canvasRef == null {
        return;
      }
      isProcessing := true;
      pending := Some(PendingLoad(canvasRef, selectedImage.value, watermarkText, position));
    }

    /** The `onload` callback for an image of natural size `w` by `h`.
        `hasContext` says whether `getContext('2d')` gave a context; without
        one the canvas is only resized. */
    method ImageLoaded(w: nat, h: nat, hasContext: bool)
      requires pending.Some?
      modifies this, pending.value.canvas
      ensures var load := old(pending.value);
        && load.canvas.width == w && load.canvas.height == h
        && load.canvas.calls == (if hasContext
                                 then WatermarkCalls(load.source, load.text, load.position, w, h)
                                 else [])
        && load.canvas.state == (if hasContext then ShadowedStyle(w) else Initial)
        && load.canvas.stack == []
        && processedImage == Some(Snapshot(w, h, load.canvas.calls))
      ensures !isProcessing && pending == None && notices == old(notices) + [Applied]
      ensures selectedImage == old(selectedImage) && canvasRef == old(canvasRef)
      ensures watermarkText == old(watermarkText) && position == old(position)
    {
      var load := pending.value;
      var canvas := load.canvas;
      if hasContext {
        DrawWatermark(canvas, load.source, load.text, load.position, w, h);
      } else {
        canvas.SetWidth(w);
        canvas.SetHeight(h);
      }
      processedImage := Some(Snapshot(canvas.width, canvas.height, canvas.calls));
      isProcessing := false;
      pending := None;
      notices := notices + [Applied];
    }
  }

  /** The image is drawn first, in the initial state, and the style-setting
      outline at (0, 0) comes before any positioned draw, with no shadow. */
  lemma ImageThenPlaceholder(source: string, text: string, position: string, w: nat, h: nat)
    ensures var calls := WatermarkCalls(source, text, position, w, h);
      && |calls| >= 2
      && calls[0] == ImageCall(source, 0.0, 0.0, Initial)
      && calls[1].StrokeCall? && calls[1].text == text && Anchor(calls[1]) == (0.0, 0.0)
      && calls[1].state.shadowBlur == 0.0
      && forall i :: 2 <= i < |calls| ==> calls[i].state.shadowBlur == ShadowBlur
  {
  }

  /** For the five positions the outline is drawn before the fill, with the
      same text, point and state; any other position draws nothing more. */
  lemma StrokeThenFill(source: string, text: string, position: string, w: nat, h: nat)
    ensures var calls := WatermarkCalls(source, text, position, w, h);
      && (position in {"center", "top-left", "top-right", "bottom-left", "bottom-right"} ==>
            && |calls| == 4 && calls[2].StrokeCall? && calls[3].FillCall?
            && calls[2].text == calls[3].text == text
            && calls[2].x == calls[3].x && calls[2].y == calls[3].y
            && calls[2].state == calls[3].state)
      && (position !in {"center", "top-left", "top-right", "bottom-left", "bottom-right"} ==>
            |calls| == 2)
  {
  }

  /** Where the text lands, and how it is aligned there, for each position,
      with the margin `p = w * 0.05`; the centre is reached by translating the
      origin to the middle of the canvas and drawing at (0, 0). */
  lemma Anchors(source: string, text: string, position: string, w: nat, h: nat)
    ensures var calls, p := WatermarkCalls(source, text, position, w, h), w as real * 0.05;
      && (position == "center" ==>
            && Anchor(calls[2]) == (w as real / 2.0, h as real / 2.0)
            && (calls[2].x, calls[2].y) == (0.0, 0.0)
            && (calls[2].state.textAlign, calls[2].state.textBaseline) == (Center, Middle))
      && (position == "top-left" ==>
            && Anchor(calls[2]) == (p, p)
            && (calls[2].state.textAlign, calls[2].state.textBaseline) == (Left, Top))
      && (position == "top-right" ==>
            && Anchor(calls[2]) == (w as real - p, p)
            && (calls[2].state.textAlign, calls[2].state.textBaseline) == (Right, Top))
      && (position == "bottom-left" ==>
            && Anchor(calls[2]) == (p, h as real - p)
            && (calls[2].state.textAlign, calls[2].state.textBaseline) == (Left, Bottom))
      && (position == "bottom-right" ==>
            && Anchor(calls[2]) == (w as real - p, h as real - p)
            && (calls[2].state.textAlign, calls[2].state.textBaseline) == (Right, Bottom))
  {
  }

  /** The text style: a font of `floor(w / 20)` pixels, that is `w // 20`, and
      an outline `fontSize / 15` wide; below 20 pixels of width the font size is
      0, the assignment of a zero line width is ignored and the outline keeps
      the default width 1. */
  lemma {:induction false} StyleOfText(w: nat)
    ensures FontSize(w) == w / 20
    ensures TextStyle(w).font == FontSpec(w / 20)
    ensures w >= 20 ==> TextStyle(w).lineWidth == (w / 20) as real / 15.0
    ensures w < 20 ==> TextStyle(w).lineWidth == 1.0
  {
    TwentiethOfWidth(w);
  }

  /** The right-hand anchors mirror the left-hand ones about the vertical
      centre line, with the alignment mirrored too, and the bottom anchors
      lie as far above the bottom edge as the top ones lie below the top edge. */
  lemma AnchorsMirror(source: string, text: string, w: nat, h: nat)
    ensures var tl := WatermarkCalls(source, text, "top-left", w, h)[2];
            var tr := WatermarkCalls(source, text, "top-right", w, h)[2];
            var bl := WatermarkCalls(source, text, "bottom-left", w, h)[2];
            var br := WatermarkCalls(source, text, "bottom-right", w, h)[2];
      && Anchor(tr).0 == w as real - Anchor(tl).0 && Anchor(tr).1 == Anchor(tl).1
      && Anchor(bl).1 == h as real - Anchor(tl).1 && Anchor(bl).0 == Anchor(tl).0
      && Anchor(br) == (Anchor(tr).0, Anchor(bl).1)
      && tl.state == tr.state.(textAlign := Left) && tr.state.textAlign == Right
      && tl.state == bl.state.(textBaseline := Top) && bl.state.textBaseline == Bottom
  {
  }

  /** A 1000 by 500 image with the text at the bottom right: a 50-pixel font,
      a 50-pixel margin, and the text's bottom-right corner at (950, 450). */
  lemma BottomRightExample(source: string, text: string)
    ensures var calls := WatermarkCalls(source, text, "bottom-right", 1000, 500);
      && FontSize(1000) == 50
      && Anchor(calls[2]) == (950.0, 450.0)
      && (calls[2].state.textAlign, calls[2].state.textBaseline) == (Right, Bottom)
  {
    StyleOfText(1000);
  }
}

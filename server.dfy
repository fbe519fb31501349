/** The `/process-image` handler of the Flask backend: it reads the upload and
    the form fields, computes the watermark geometry, draws the text into a
    transparent layer (rotated about its centre for the `center` position),
    and answers with the composite as a PNG data URI, or with a JSON error. */
module Server {

  import opened Basics
  import opened Numerics
  import opened Decimal
  import opened Pil

  /** The multipart request: file parts and text fields by name. */
  datatype Request = Request(files: map<string, seq<byte>>, form: map<string, string>)

  /** The form fields after defaults and `int(...)` conversion. */
  datatype Params = Params(
    text: string, position: string, opacity: int, scale: int, rotation: int, color: string)

  /** Why the handler answered with an error. */
  datatype Failure =
    | NoFileUploaded                   // the 400 answer
    | NotAnInteger(field: string)      // `int(...)` raised `ValueError`
    | UnknownColor(spec: string)       // `ImageColor.getrgb` raised
    | CannotIdentifyImage              // `Image.open` raised
    | DivisionByZero                   // `width / font_scale` with `font_scale == 0`
    | CannotMeasure                    // `textbbox` raised
    | CannotDraw                       // `draw.text` raised
    | CannotRotate                     // `rotate` raised: the angle is no float

  datatype Body = PngDataUri(png: Picture) | ErrorJson(error: Failure)

  datatype Response = Response(status: nat, body: Body)

  datatype Result<T> = Ok(value: T) | Err(failure: Failure)

  const OutlineWidth: nat := 3

  const DefaultText := "CONFIDENTIAL"
  const DefaultPosition := "center"
  const DefaultOpacity := 128
  const DefaultScale := 20
  const DefaultRotation := 45
  const DefaultColor := "#E50914"

  /** `request.form.get(key, default)` for a text field. */
  function Field(form: map<string, string>, key: string, default: string): (v: string)
    ensures key in form ==> v == form[key]
    ensures key !in form ==> v == default
  {
    if key in form then form[key] else default
  }

  /** `int(request.form.get(key, default))`. */
  function IntField(form: map<string, string>, key: string, default: int): (r: Result<int>)
    ensures key !in form ==> r == Ok(default)
    ensures key in form ==> (r.Ok? <==> ParseInt(form[key]).Some?)
    ensures r.Err? ==> r.failure == NotAnInteger(key)
  {
    if key !in form then Ok(default)
    else match ParseInt(form[key])
      case Some(n) => Ok(n)
      case None => Err(NotAnInteger(key))
  }

  /** The form fields in the order the handler reads them; the first
      `int(...)` that raises ends the request. */
  function ReadParams(form: map<string, string>): Result<Params>
  {
    var text := Field(form, "text", DefaultText);
    var position := Field(form, "position", DefaultPosition);
    match IntField(form, "opacity", DefaultOpacity)
    case Err(f) => Err(f)
    case Ok(opacity) =>
      match IntField(form, "size", DefaultScale)
      case Err(f) => Err(f)
      case Ok(scale) =>
        match IntField(form, "rotation", DefaultRotation)
        case Err(f) => Err(f)
        case Ok(rotation) =>
          Ok(Params(text, position, opacity, scale, rotation, Field(form, "color", DefaultColor)))
  }

  /** `int(width / font_scale)`; `None` when the division raises. */
  function FontSize(width: nat, scale: int): Option<int>
  {
    if scale == 0 then None else Some(Trunc(width as real / scale as real))
  }

  /** `int(width * 0.05)`. */
  function Padding(width: nat): int
  {
    Trunc(width as real * 0.05)
  }

  /** The fill: the parsed colour with the requested opacity as alpha. */
  function TextColor(rgb: Rgb, opacity: int): Rgba
  {
    Rgba(rgb.r, rgb.g, rgb.b, opacity)
  }

  /** The outline: black with the same alpha as the fill. */
  function OutlineColor(opacity: int): Rgba
  {
    Rgba(0, 0, 0, opacity)
  }

  /** The `center` branch draws on a layer three times the image size in each direction. */
  function OverlaySize(size: Size): Size
  {
    Size(size.width * 3, size.height * 3)
  }

  /** Top-left corner of the text in the overlay: its centre less half the text box. */
  function CenterOrigin(size: Size, textW: int, textH: int): Point
  {
    var overlay := OverlaySize(size);
    Point(FloorDiv(overlay.width, 2) - FloorDiv(textW, 2),
          FloorDiv(overlay.height, 2) - FloorDiv(textH, 2))
  }

  /** The window cut out of the rotated overlay: centred, the image's own size. */
  function CenterCrop(rotated: Size, size: Size): Box
  {
    var left := FloorDiv(rotated.width - size.width, 2);
    var top := FloorDiv(rotated.height - size.height, 2);
    Box(left, top, left + size.width, top + size.height)
  }

  /** Top-left corner of the text for every position other than `center`. */
  function CornerOrigin(position: string, size: Size, textW: int, textH: int): Point
  {
    var w, h, p := size.width, size.height, Padding(size.width);
    if position == "top-left" then Point(p, p)
    else if position == "top-right" then Point(w - textW - p, p)
    else if position == "bottom-left" then Point(p, h - textH - p)
    else if position == "bottom-right" then Point(w - textW - p, h - textH - p)
    else Point(0, 0)
  }

  /** The text drawn for a request: its origin, font and colours. */
  function WatermarkMark(origin: Point, p: Params, font: Font, rgb: Rgb): Mark
  {
    Mark(origin, p.text, font, TextColor(rgb, p.opacity),
         Stroke(OutlineWidth, OutlineColor(p.opacity)))
  }

  /** The text a request asks to draw on an image of the given size: font,
      measured origin and colours; `None` when measuring raises. */
  function PlannedMark(env: Env, size: Size, p: Params, rgb: Rgb): (r: Option<Mark>)
    requires p.scale != 0
    ensures var font := LoadFont(env, ArialBold, FontSize(size.width, p.scale).value);
      && (r.None? <==> Measure(env, font, p.text).None?)
      && (r.Some? ==> var (tw, th) := Measure(env, font, p.text).value;
            r.value == WatermarkMark(if p.position == "center" then CenterOrigin(size, tw, th)
                                     else CornerOrigin(p.position, size, tw, th), p, font, rgb))
    ensures r.Some? ==> r.value == WatermarkMark(r.value.origin, p, r.value.font, rgb)
  {
    var font := LoadFont(env, ArialBold, FontSize(size.width, p.scale).value);
    match Measure(env, font, p.text)
    case None => None
    case Some((tw, th)) =>
      var origin := if p.position == "center" then CenterOrigin(size, tw, th)
                    else CornerOrigin(p.position, size, tw, th);
      Some(WatermarkMark(origin, p, font, rgb))
  }

  /** The text drawn for a request on an image of the given size, or why
      measuring it, drawing it or (for `center`) rotating the overlay raises. */
  function Watermark(env: Env, size: Size, p: Params, rgb: Rgb): (r: Result<Mark>)
    requires p.scale != 0
    ensures r.Err? ==> r.failure in {CannotMeasure, CannotDraw, CannotRotate}
    ensures r.Ok? ==> Drawable(env, r.value) && Some(r.value) == PlannedMark(env, size, p, rgb)
    ensures r.Ok? && p.position == "center" ==> FloatFits(p.rotation)
  {
    match PlannedMark(env, size, p, rgb)
    case None => Err(CannotMeasure)
    case Some(mark) =>
      if !Drawable(env, mark) then Err(CannotDraw)
      else if p.position == "center" && !FloatFits(p.rotation) then Err(CannotRotate)
      else Ok(mark)
  }

  /** The watermarked picture for a decoded image of the given size, once its
      text has been drawn as `mark`. */
  function Render(data: seq<byte>, size: Size, p: Params, mark: Mark): Picture
  {
    Picture(size, Composite(Decoded(data), Layer(size, p, mark)))
  }

  /** The transparent layer carrying the text: for `center` the middle of the
      rotated overlay, otherwise a layer of the image's size. */
  function Layer(size: Size, p: Params, mark: Mark): Paint
  {
    if p.position == "center" then
      Cropped(Rotated(Drawn(Blank(OverlaySize(size), ClearWhite), mark), p.rotation, false),
              CenterCrop(OverlaySize(size), size))
    else
      Drawn(Blank(size, ClearWhite), mark)
  }

  /** The handler's answer, as a function of the request and the library
      behaviour: 400 without a file, 500 for every exception, otherwise 200
      with the picture. */
  function Respond(env: Env, req: Request): (r: Response)
    ensures r.status in {200, 400, 500}
    ensures r.status == 200 <==> r.body.PngDataUri?
  {
    if "file" !in req.files then Response(400, ErrorJson(NoFileUploaded))
    else
      match ReadParams(req.form)
      case Err(f) => Response(500, ErrorJson(f))
      case Ok(p) =>
        match env.getrgb(p.color)
        case None => Response(500, ErrorJson(UnknownColor(p.color)))
        case Some(rgb) =>
          match env.open(req.files["file"])
          case None => Response(500, ErrorJson(CannotIdentifyImage))
          case Some(size) =>
            if p.scale == 0 then Response(500, ErrorJson(DivisionByZero))
            else
              match Watermark(env, size, p, rgb)
              case Err(f) => Response(500, ErrorJson(f))
              case Ok(mark) => Response(200, PngDataUri(Render(req.files["file"], size, p, mark)))
  }

  /** `process_image`: the handler step by step, on Pillow image objects. */
  method ProcessImage(env: Env, req: Request) returns (resp: Response)
    ensures resp == Respond(env, req)
  {
    if "file" !in req.files {
      return Response(400, ErrorJson(NoFileUploaded));
    }
    var data := req.files["file"];
    var text := Field(req.form, "text", DefaultText);
    var position := Field(req.form, "position", DefaultPosition);
    var opacity := IntField(req.form, "opacity", DefaultOpacity);
    if opacity.Err? {
      return Response(500, ErrorJson(opacity.failure));
    }
    var scale := IntField(req.form, "size", DefaultScale);
    if scale.Err? {
      return Response(500, ErrorJson(scale.failure));
    }
    var rotation := IntField(req.form, "rotation", DefaultRotation);
    if rotation.Err? {
      return Response(500, ErrorJson(rotation.failure));
    }
    var color := Field(req.form, "color", DefaultColor);
    var p := Params(text, position, opacity.value, scale.value, rotation.value, color);
    assert ReadParams(req.form) == Ok(p);

    var rgb := env.getrgb(color);
    if rgb.None? {
      return Response(500, ErrorJson(UnknownColor(color)));
    }
    var size := env.open(data);
    if size.None? {
      return Response(500, ErrorJson(CannotIdentifyImage));
    }
    var img := new Image.Open(env, data, size.value);
    var width, height := img.size.width, img.size.height;

    var fontSize := FontSize(width, p.scale);
    if fontSize.None? {
      return Response(500, ErrorJson(DivisionByZero));
    }
    var font := LoadFont(env, ArialBold, fontSize.value);
    var extent := Measure(env, font, text);
    if extent.None? {
      return Response(500, ErrorJson(CannotMeasure));
    }
    var (textW, textH) := extent.value;
    var watermarkCrop := DrawLayer(env, img.size, p, font, rgb.value, textW, textH);
    if watermarkCrop.Err? {
      return Response(500, ErrorJson(watermarkCrop.failure));
    }
    var finalImg := AlphaComposite(img, watermarkCrop.value);
    resp := Response(200, PngDataUri(finalImg.Snapshot()));
  }

  /** Steps 4 and 5 of the handler: the colours, then the text drawn on the
      layer of its position; the failure when `draw.text` or `rotate` raises. */
  method DrawLayer(env: Env, size: Size, p: Params, font: Font, rgb: Rgb, textW: int, textH: int)
    returns (layer: Result<Image>)
    ensures var origin := if p.position == "center" then CenterOrigin(size, textW, textH)
                          else CornerOrigin(p.position, size, textW, textH);
            var mark := WatermarkMark(origin, p, font, rgb);
      && (layer.Err? <==> !Drawable(env, mark) || (p.position == "center" && !FloatFits(p.rotation)))
      && (layer.Err? ==> layer.failure == if Drawable(env, mark) then CannotRotate else CannotDraw)
      && (layer.Ok? ==> fresh(layer.value) && layer.value.size == size
                        && layer.value.paint == Layer(size, p, mark))
  {
    var width, height := size.width, size.height;
    var textColor := TextColor(rgb, p.opacity);
    var strokeColor := OutlineColor(p.opacity);
    var drawn: bool;
    if p.position == "center" {
      var overlay := new Image.New(Size(width * 3, height * 3), ClearWhite);
      var cx, cy := FloorDiv(overlay.size.width, 2), FloorDiv(overlay.size.height, 2);
      drawn := overlay.DrawText(env, Mark(Point(cx - FloorDiv(textW, 2), cy - FloorDiv(textH, 2)),
                                          p.text, font, textColor, Stroke(OutlineWidth, strokeColor)));
      if !drawn {
        return Err(CannotDraw);
      }
      var rotated := overlay.Rotate(env, p.rotation, false);
      if rotated == null {
        return Err(CannotRotate);
      }
      var left := FloorDiv(rotated.size.width - width, 2);
      var top := FloorDiv(rotated.size.height - height, 2);
      var cropped := rotated.Crop(Box(left, top, left + width, top + height));
      layer := Ok(cropped);
    } else {
      var blank := new Image.New(Size(width, height), ClearWhite);
      var padding := Padding(width);
      var px, py := 0, 0;
      if p.position == "top-left" {
        px, py := padding, padding;
      } else if p.position == "top-right" {
        px, py := width - textW - padding, padding;
      } else if p.position == "bottom-left" {
        px, py := padding, height - textH - padding;
      } else if p.position == "bottom-right" {
        px, py := width - textW - padding, height - textH - padding;
      }
      drawn := blank.DrawText(env, Mark(Point(px, py), p.text, font, textColor,
                                        Stroke(OutlineWidth, strokeColor)));
      if !drawn {
        return Err(CannotDraw);
      }
      layer := Ok(blank);
    }
  }

  /** A request without a `file` part is answered 400 and no image is made. */
  lemma MissingFileRejected(env: Env, req: Request)
    requires "file" !in req.files
    ensures Respond(env, req) == Response(400, ErrorJson(NoFileUploaded))
  {
  }

  /** Absent fields take their defaults. */
  lemma EmptyFormDefaults()
    ensures ReadParams(map[]) == Ok(Params("CONFIDENTIAL", "center", 128, 20, 45, "#E50914"))
  {
  }

  /** The handler answers 200 with an image exactly when the file is present,
      the numeric fields parse, the colour and the image can be read, the size
      divisor is not zero and the text can be measured and drawn; 400 exactly
      when the file is missing; 500 otherwise. */
  lemma ResponseKinds(env: Env, req: Request)
    ensures var r := Respond(env, req);
      && (r.status == 400 <==> "file" !in req.files)
      && (r.status == 500 <==> "file" in req.files && !r.body.PngDataUri?)
      && (r.status == 200 <==>
            && "file" in req.files
            && ReadParams(req.form).Ok?
            && env.getrgb(ReadParams(req.form).value.color).Some?
            && env.open(req.files["file"]).Some?
            && ReadParams(req.form).value.scale != 0
            && Watermark(env, env.open(req.files["file"]).value, ReadParams(req.form).value,
                         env.getrgb(ReadParams(req.form).value.color).value).Ok?)
  {
  }

  /** For `center`, a rotation field that parses (up to 4300 digits) but
      does not convert to a float (from about 1.8 * 10^308) makes `rotate`
      raise: the handler answers 500 whatever the image and the library do. */
  lemma HugeRotationFails(env: Env, req: Request)
    requires "file" in req.files && ReadParams(req.form).Ok?
    requires ReadParams(req.form).value.position == "center"
    requires !FloatFits(ReadParams(req.form).value.rotation)
    ensures Respond(env, req).status == 500
  {
  }

  /** Once the mark is measured and drawable, the `center` answer fails
      exactly when the rotation angle is no float, with `CannotRotate`. */
  lemma RotateFailure(env: Env, size: Size, p: Params, rgb: Rgb)
    requires p.scale != 0 && p.position == "center"
    requires PlannedMark(env, size, p, rgb).Some? && Drawable(env, PlannedMark(env, size, p, rgb).value)
    ensures Watermark(env, size, p, rgb).Err? <==> !FloatFits(p.rotation)
    ensures Watermark(env, size, p, rgb).Err? ==> Watermark(env, size, p, rgb).failure == CannotRotate
  {
  }

  /** A size divisor of zero never yields an image: the division raises and
      the handler answers 500. */
  lemma ZeroScaleFails(env: Env, req: Request)
    requires "file" in req.files
    requires ReadParams(req.form).Ok? && ReadParams(req.form).value.scale == 0
    ensures Respond(env, req).status == 500
    ensures env.getrgb(ReadParams(req.form).value.color).Some? && env.open(req.files["file"]).Some?
            ==> Respond(env, req).body == ErrorJson(DivisionByZero)
  {
  }

  /** `int(width / font_scale)` is the quotient truncated toward zero: for a
      positive divisor the floor of `width / scale`, for a negative one its negation. */
  lemma FontSizeTruncates(width: nat, scale: int)
    requires scale != 0
    ensures FontSize(width, scale) == Some(TruncDiv(width, scale))
    ensures scale > 0 ==> FontSize(width, scale) == Some(width / scale)
    ensures scale < 0 ==> FontSize(width, scale) == Some(-(width / -scale))
  {
    TruncOfQuotient(width, scale);
  }

  /** Fill and outline share the requested alpha, passed through unclamped;
      the fill keeps the parsed colour and the outline is black, 3 pixels wide. */
  lemma MarkColors(origin: Point, p: Params, font: Font, rgb: Rgb)
    ensures var m := WatermarkMark(origin, p, font, rgb);
      && m.fill.a == p.opacity && m.stroke.Stroke? && m.stroke.fill.a == p.opacity
      && (m.fill.r, m.fill.g, m.fill.b) == (rgb.r, rgb.g, rgb.b)
      && (m.stroke.fill.r, m.stroke.fill.g, m.stroke.fill.b) == (0, 0, 0)
      && m.stroke.width == 3 && m.text == p.text && m.origin == origin
  {
  }

  /** The `center` layout: the overlay is three times the image in each
      direction, the crop window is its middle cell `(w, h)`-`(2w, 2h)`, and the
      text box is centred in the crop window to within half a pixel. */
  lemma CenterGeometry(size: Size, textW: int, textH: int)
    ensures OverlaySize(size) == Size(3 * size.width, 3 * size.height)
    ensures CenterCrop(OverlaySize(size), size)
         == Box(size.width, size.height, 2 * size.width, 2 * size.height)
    ensures var o, c := CenterOrigin(size, textW, textH), CenterCrop(OverlaySize(size), size);
      && -1 <= 2 * (o.x - c.left) + textW - size.width <= 1
      && -1 <= 2 * (o.y - c.top) + textH - size.height <= 1
  {
  }

  /** The corner table, with the margin `int(w * 0.05)` equal to `w // 20`;
      every other position string puts the text at the origin. */
  lemma CornerTable(position: string, size: Size, textW: int, textH: int)
    ensures var w, h, p, o := size.width, size.height, size.width / 20,
                              CornerOrigin(position, size, textW, textH);
      && (position == "top-left" ==> o == Point(p, p))
      && (position == "top-right" ==> o == Point(w - textW - p, p))
      && (position == "bottom-left" ==> o == Point(p, h - textH - p))
      && (position == "bottom-right" ==> o == Point(w - textW - p, h - textH - p))
      && (position !in {"top-left", "top-right", "bottom-left", "bottom-right"} ==> o == Point(0, 0))
  {
    TwentiethOfWidth(size.width);
  }

  /** The right-hand corners mirror the left-hand ones and the bottom corners
      mirror the top ones: the text box keeps the same margin from the nearest
      vertical edge and from the nearest horizontal edge. */
  lemma CornersMirror(size: Size, textW: int, textH: int)
    ensures var tl, tr, bl, br := CornerOrigin("top-left", size, textW, textH),
                                  CornerOrigin("top-right", size, textW, textH),
                                  CornerOrigin("bottom-left", size, textW, textH),
                                  CornerOrigin("bottom-right", size, textW, textH);
      && size.width - (tr.x + textW) == tl.x && tr.y == tl.y
      && size.height - (bl.y + textH) == tl.y && bl.x == tl.x
      && br == Point(tr.x, bl.y)
  {
  }

  /** An opacity outside a C `int` (an `opacity` field of "2147483648",
      say) passes `int(...)` but makes the draw raise: the handler answers 500
      whatever else the library does. */
  lemma OversizedOpacityFails(env: Env, req: Request)
    requires "file" in req.files && ReadParams(req.form).Ok?
    requires !(IntMin <= ReadParams(req.form).value.opacity <= IntMax)
    ensures Respond(env, req).status == 500
  {
  }

  /** The inks of a mark with an opacity outside a C `int` are refused. */
  lemma OversizedInkRaises(env: Env, origin: Point, p: Params, font: Font, rgb: Rgb)
    requires !(IntMin <= p.opacity <= IntMax)
    ensures !Drawable(env, WatermarkMark(origin, p, font, rgb))
  {
  }

  /** The ink rule for the watermark: the black outline always fits, so
      the mark is drawn exactly when the colour's red fits a C `long long`,
      its green and blue and the opacity fit a C `int`, and the library
      draws. A red of 2^31 (from `rgb(2147483648,0,0)`) is still drawn. */
  lemma WatermarkInkRule(env: Env, origin: Point, p: Params, font: Font, rgb: Rgb)
    ensures Drawable(env, WatermarkMark(origin, p, font, rgb))
        <==> && LongLongMin <= rgb.r <= LongLongMax
             && IntMin <= rgb.g <= IntMax && IntMin <= rgb.b <= IntMax
             && IntMin <= p.opacity <= IntMax
             && env.draws(WatermarkMark(origin, p, font, rgb))
  {
  }

  /** `int(...)` refuses a number field of more than 4300 digits, so the
      handler answers 500 even where the field's value would not matter. */
  lemma OverlongNumberFails(env: Env, req: Request, key: string)
    requires "file" in req.files
    requires key == "opacity" || key == "size" || key == "rotation"
    requires key in req.form && AllDigits(req.form[key]) && |req.form[key]| > MaxStrDigits
    ensures Respond(env, req).status == 500
  {
    assert IsDigit(req.form[key][0]);
    assert ParseInt(req.form[key]).None?;
  }

  /** With colour components and an opacity in 0..255 the inks always fit, so
      the draw fails only when the library itself raises. */
  lemma ByteInkFits(env: Env, origin: Point, p: Params, font: Font, rgb: Rgb)
    requires 0 <= p.opacity <= 255 && IsByteRgb(rgb)
    ensures Drawable(env, WatermarkMark(origin, p, font, rgb))
        <==> env.draws(WatermarkMark(origin, p, font, rgb))
  {
  }

  /** Outside `center` the rotation changes neither the text drawn nor the picture. */
  lemma RotationIgnoredOffCenter(env: Env, data: seq<byte>, size: Size, p: Params, rgb: Rgb,
                                 mark: Mark, angle: int)
    requires p.scale != 0 && p.position != "center"
    ensures Watermark(env, size, p, rgb) == Watermark(env, size, p.(rotation := angle), rgb)
    ensures Render(data, size, p, mark) == Render(data, size, p.(rotation := angle), mark)
  {
  }

  /** Outside `center`, changing the rotation field to any other integer
      leaves the answer unchanged (a field that does not parse still fails). */
  lemma RotationFieldIgnoredOffCenter(env: Env, req: Request, angle: string)
    requires Field(req.form, "position", DefaultPosition) != "center"
    requires ParseInt(angle).Some?
    requires "rotation" in req.form ==> ParseInt(req.form["rotation"]).Some?
    ensures Respond(env, req) == Respond(env, req.(form := req.form["rotation" := angle]))
  {
    var req' := req.(form := req.form["rotation" := angle]);
    var a, b := ReadParams(req.form), ReadParams(req'.form);
    assert a.Ok? <==> b.Ok?;
    if a.Ok? {
      assert b.value == a.value.(rotation := b.value.rotation);
      if "file" in req.files && env.getrgb(a.value.color).Some?
         && env.open(req.files["file"]).Some? && a.value.scale != 0 {
        var size, rgb := env.open(req.files["file"]).value, env.getrgb(a.value.color).value;
        var w := Watermark(env, size, a.value, rgb);
        if w.Ok? {
          RotationIgnoredOffCenter(env, req.files["file"], size, a.value, rgb, w.value, b.value.rotation);
        } else {
          RotationIgnoredOffCenter(env, req.files["file"], size, a.value, rgb,
                                   Mark(Point(0, 0), [], DefaultFont, ClearWhite, NoStroke), b.value.rotation);
        }
      }
    }
  }

  /** The watermark layer has the image's size in both branches, so the
      composite is defined and the picture keeps the input dimensions. */
  lemma {:induction false} RenderKeepsSize(env: Env, data: seq<byte>, size: Size, p: Params, mark: Mark)
    requires env.open(data) == Some(size)
    ensures Render(data, size, p, mark).size == size
    ensures PaintSize(env, Render(data, size, p, mark).paint) == Some(size)
  {
    var paint := Render(data, size, p, mark).paint;
    var layer := paint.over;
    if p.position == "center" {
      assert PaintSize(env, layer.src.src) == Some(OverlaySize(size));
      assert PaintSize(env, layer.src) == Some(OverlaySize(size));
      CenterGeometry(size, 0, 0);
    }
    assert PaintSize(env, layer) == Some(size);
  }

  /** A successful answer carries an image of the uploaded image's size. */
  lemma OutputKeepsInputSize(env: Env, req: Request)
    requires Respond(env, req).body.PngDataUri?
    ensures "file" in req.files && env.open(req.files["file"]).Some?
    ensures var png := Respond(env, req).body.png;
      && png.size == env.open(req.files["file"]).value
      && PaintSize(env, png.paint) == Some(png.size)
  {
    var p := ReadParams(req.form).value;
    var size := env.open(req.files["file"]).value;
    var mark := Watermark(env, size, p, env.getrgb(p.color).value).value;
    RenderKeepsSize(env, req.files["file"], size, p, mark);
  }
}

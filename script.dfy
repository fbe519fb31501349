/** `create_watermark` of the stand-alone script: a fixed red text, centred on
    a layer twice the image size, drawn once plain and once outlined, rotated
    45 degrees with the canvas expanded, cropped back to the image size about
    the centre and composited over the image. */
module Script {

  import opened Basics
  import opened Numerics
  import opened Pil

  const DefaultText := "NETFLIX ORIGINAL"
  const NetflixRed := Rgba(229, 9, 20, 180)
  /** `stroke_fill="black"` on an RGBA image. */
  const Black := Rgba(0, 0, 0, 255)
  const OutlineWidth: nat := 2
  const Angle := 45

  /** What a call leaves behind: the composited picture it saves, or the
      exception it caught and printed. */
  datatype Outcome = Saved(picture: Picture) | Printed(error: Failure)

  datatype Failure =
    | CannotOpen                // `Image.open` raised
    | CannotMeasure             // `textbbox` raised
    | CannotDraw                // a `draw.text` raised
    | CannotSave(format: Format)

  /** `int(width / 15)`. */
  function FontSize(width: nat): int
  {
    Trunc(width as real / 15.0)
  }

  /** The text layer is twice the image size in each direction. */
  function LayerSize(size: Size): Size
  {
    Size(size.width * 2, size.height * 2)
  }

  /** `((width * 2 - text_w) // 2, (height * 2 - text_h) // 2)`. */
  function TextOrigin(size: Size, textW: int, textH: int): Point
  {
    var layer := LayerSize(size);
    Point(FloorDiv(layer.width - textW, 2), FloorDiv(layer.height - textH, 2))
  }

  /** The crop of the rotated layer: centred, `width` by `height`. */
  function CropBox(rotated: Size, size: Size): Box
  {
    var left := FloorDiv(rotated.width - size.width, 2);
    var top := FloorDiv(rotated.height - size.height, 2);
    Box(left, top, left + size.width, top + size.height)
  }

  /** The two `draw.text` calls at the same origin: plain fill, then fill with outline. */
  function Marks(origin: Point, text: string, font: Font): (Mark, Mark)
  {
    (Mark(origin, text, font, NetflixRed, NoStroke),
     Mark(origin, text, font, NetflixRed, Stroke(OutlineWidth, Black)))
  }

  /** The picture saved for a decodable image, once both marks are drawn. */
  function Watermarked(env: Env, data: seq<byte>, size: Size, plain: Mark, outlined: Mark): Picture
  {
    var layer := Drawn(Drawn(Blank(LayerSize(size), ClearWhite), plain), outlined);
    var rotatedSize := env.expandedSize(LayerSize(size), Angle);
    Picture(size, Composite(Decoded(data), Cropped(Rotated(layer, Angle, true), CropBox(rotatedSize, size))))
  }

  /** The result of a call; `input` is the content of `input_path`, `None`
      when it cannot be read. Each exception ends the call with its message
      printed: opening, measuring, either draw, then the JPEG and the PNG save. */
  function Expected(env: Env, input: Option<seq<byte>>, outputPath: string, text: string): (o: Outcome)
    ensures o.Saved? ==> input.Some? && env.open(input.value) == Some(o.picture.size)
    ensures o.Saved? ==> env.saves(outputPath, Jpeg) && env.saves(outputPath, Png)
  {
    if input.None? || env.open(input.value).None? then Printed(CannotOpen)
    else
      var size := env.open(input.value).value;
      var font := LoadFont(env, ArialBold, FontSize(size.width));
      match Measure(env, font, text)
      case None => Printed(CannotMeasure)
      case Some((tw, th)) =>
        var (plain, outlined) := Marks(TextOrigin(size, tw, th), text, font);
        if !Drawable(env, plain) || !Drawable(env, outlined) then Printed(CannotDraw)
        else if !env.saves(outputPath, Jpeg) then Printed(CannotSave(Jpeg))
        else if !env.saves(outputPath, Png) then Printed(CannotSave(Png))
        else Saved(Watermarked(env, input.value, size, plain, outlined))
  }

  /** `create_watermark`: the script step by step, on Pillow image objects.
      Every exception is caught and printed, so the call always returns. */
  method CreateWatermark(env: Env, input: Option<seq<byte>>, outputPath: string,
                         text: string := DefaultText)
    returns (outcome: Outcome)
    ensures outcome == Expected(env, input, outputPath, text)
  {
    if input.None? || env.open(input.value).None? {
      return Printed(CannotOpen);
    }
    var baseImage := new Image.Open(env, input.value, env.open(input.value).value);
    var width, height := baseImage.size.width, baseImage.size.height;

    var txtLayer := new Image.New(Size(width * 2, height * 2), ClearWhite);
    var font := LoadFont(env, ArialBold, FontSize(width));
    var extent := Measure(env, font, text);
    if extent.None? {
      return Printed(CannotMeasure);
    }
    var (textW, textH) := extent.value;
    var textX := FloorDiv(width * 2 - textW, 2);
    var textY := FloorDiv(height * 2 - textH, 2);

    var drawn := txtLayer.DrawText(env, Mark(Point(textX, textY), text, font, NetflixRed, NoStroke));
    if !drawn {
      return Printed(CannotDraw);
    }
    drawn := txtLayer.DrawText(env, Mark(Point(textX, textY), text, font, NetflixRed,
                                         Stroke(OutlineWidth, Black)));
    if !drawn {
      return Printed(CannotDraw);
    }

    var rotatedLayer := txtLayer.Rotate(env, Angle, true);
    assert rotatedLayer != null;
    var rotW, rotH := rotatedLayer.size.width, rotatedLayer.size.height;
    var left := FloorDiv(rotW - width, 2);
    var top := FloorDiv(rotH - height, 2);
    var right := left + width;
    var bottom := top + height;
    var watermarkCrop := rotatedLayer.Crop(Box(left, top, right, bottom));

    var combined := AlphaComposite(baseImage, watermarkCrop);
    var saved := combined.Save(env, outputPath, Jpeg);
    if !saved {
      return Printed(CannotSave(Jpeg));
    }
    saved := combined.Save(env, outputPath, Png);
    if !saved {
      return Printed(CannotSave(Png));
    }
    outcome := Saved(combined.Snapshot());
  }

  /** `int(width / 15)` is `width // 15`. */
  lemma FontSizeIsFifteenth(width: nat)
    ensures FontSize(width) == width / 15
  {
    TruncOfQuotient(width, 15);
  }

  /** The text box is centred in the doubled layer, rounding up-left by at
      most half a pixel. */
  lemma TextCentredInLayer(size: Size, textW: int, textH: int)
    ensures var o, l := TextOrigin(size, textW, textH), LayerSize(size);
      && l == Size(2 * size.width, 2 * size.height)
      && -1 <= 2 * o.x + textW - l.width <= 0
      && -1 <= 2 * o.y + textH - l.height <= 0
  {
  }

  /** The crop box is always exactly the image size and centred in the rotated
      layer: the margins left and right (top and bottom) differ by at most one
      pixel, and when the rotated layer is at least the image size the box lies
      inside it. */
  lemma CropBoxCentred(rotated: Size, size: Size)
    ensures var b := CropBox(rotated, size);
      && b.right - b.left == size.width && b.bottom - b.top == size.height
      && 0 <= (rotated.width - b.right) - b.left <= 1
      && 0 <= (rotated.height - b.bottom) - b.top <= 1
      && (rotated.width >= size.width ==> 0 <= b.left && b.right <= rotated.width)
      && (rotated.height >= size.height ==> 0 <= b.top && b.bottom <= rotated.height)
  {
  }

  /** The text is drawn twice at one origin in the same red at alpha 180:
      first without outline, then with a 2-pixel black outline. */
  lemma DrawOrder(env: Env, data: seq<byte>, size: Size, origin: Point, text: string, font: Font)
    ensures var (plain, outlined) := Marks(origin, text, font);
            var layer := Watermarked(env, data, size, plain, outlined).paint.over.src.src;
      && layer == Drawn(Drawn(Blank(LayerSize(size), ClearWhite), plain), outlined)
      && plain.origin == outlined.origin == origin
      && plain.fill == outlined.fill == Rgba(229, 9, 20, 180)
      && plain.stroke == NoStroke
      && outlined.stroke == Stroke(2, Rgba(0, 0, 0, 255))
  {
  }

  /** The script's inks are fixed and fit, so a draw fails only when the
      library itself raises. */
  lemma InksFit(env: Env, origin: Point, text: string, font: Font)
    ensures var (plain, outlined) := Marks(origin, text, font);
      && (Drawable(env, plain) <==> env.draws(plain))
      && (Drawable(env, outlined) <==> env.draws(outlined))
  {
  }

  /** The script saves exactly when the input opens, the text can be
      measured, both draws complete and both saves succeed; in every other
      case it prints the first exception raised. A failed save is printed,
      never reported as saved. */
  lemma OutcomeKinds(env: Env, input: Option<seq<byte>>, outputPath: string, text: string)
    ensures var o := Expected(env, input, outputPath, text);
      && (input.None? || env.open(input.value).None? ==> o == Printed(CannotOpen))
      && (!env.saves(outputPath, Jpeg) ==> o.Printed?)
      && (!env.saves(outputPath, Png) ==> o.Printed?)
      && (o.Saved? <==>
            && input.Some? && env.open(input.value).Some?
            && var size := env.open(input.value).value;
               var font := LoadFont(env, ArialBold, FontSize(size.width));
               && Measure(env, font, text).Some?
               && var marks := Marks(TextOrigin(size, Measure(env, font, text).value.0,
                                                Measure(env, font, text).value.1), text, font);
                  && Drawable(env, marks.0) && Drawable(env, marks.1)
                  && env.saves(outputPath, Jpeg) && env.saves(outputPath, Png))
  {
  }

  /** The saved picture has the input image's size, and every step that
      produces it is defined: the crop box is well formed and the composite
      joins two images of equal size. */
  lemma {:induction false} OutputKeepsInputSize(env: Env, input: Option<seq<byte>>, outputPath: string,
                                                text: string)
    requires Expected(env, input, outputPath, text).Saved?
    ensures input.Some? && env.open(input.value).Some?
    ensures var pic := Expected(env, input, outputPath, text).picture;
      && pic.size == env.open(input.value).value
      && PaintSize(env, pic.paint) == Some(pic.size)
  {
    var size := env.open(input.value).value;
    var pic := Expected(env, input, outputPath, text).picture;
    var crop := pic.paint.over;
    assert PaintSize(env, crop.src.src.under) == Some(LayerSize(size));
    assert PaintSize(env, crop.src.src) == Some(LayerSize(size));
    assert PaintSize(env, crop.src) == Some(env.expandedSize(LayerSize(size), Angle));
    CropBoxCentred(env.expandedSize(LayerSize(size), Angle), size);
    assert PaintSize(env, crop) == Some(size);
  }
}

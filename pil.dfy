/** The part of the Pillow imaging library that the watermark scripts use,
    modelled by what each call does to an image's size and by a symbolic
    record of how its pixels were produced. Pixel values, glyph shapes,
    resampling and blending arithmetic are not modelled: an image's pixels
    are the `Paint` term that names the operations that made them. */
module Pil {

  import opened Basics

  /** An `ImageColor.getrgb` result; `rgb(...)` strings can give components
      above 255, hex strings never do. */
  datatype Rgb = Rgb(r: int, g: int, b: int)

  predicate IsByteRgb(c: Rgb) {
    0 <= c.r <= 255 && 0 <= c.g <= 255 && 0 <= c.b <= 255
  }

  /** A colour tuple as given to `ImageDraw.text`; components are not clamped. */
  datatype Rgba = Rgba(r: int, g: int, b: int, a: int)

  datatype Size = Size(width: nat, height: nat)

  datatype Point = Point(x: int, y: int)

  /** A box `(left, top, right, bottom)`, as `crop` and `textbbox` use it. */
  datatype Box = Box(left: int, top: int, right: int, bottom: int)

  /** `ImageFont.truetype(file, size)`, or the built-in bitmap font it falls back to. */
  datatype Font = TrueType(file: string, size: int) | DefaultFont

  datatype Stroke = NoStroke | Stroke(width: nat, fill: Rgba)

  /** One `ImageDraw.text(origin, text, font, fill, stroke_width, stroke_fill)` call. */
  datatype Mark = Mark(origin: Point, text: string, font: Font, fill: Rgba, stroke: Stroke)

  /** How an image's pixels were produced. */
  datatype Paint =
    | Decoded(data: seq<byte>)                    // `Image.open(...).convert("RGBA")`
    | Blank(size: Size, color: Rgba)              // `Image.new("RGBA", size, color)`
    | Drawn(under: Paint, mark: Mark)             // text drawn on top of `under`
    | Rotated(src: Paint, angle: int, expand: bool)
    | Cropped(src: Paint, box: Box)
    | Composite(base: Paint, over: Paint)         // `Image.alpha_composite(base, over)`

  /** An image as a value: what an encoder receives. */
  datatype Picture = Picture(size: Size, paint: Paint)

  /** A file format `save` writes. */
  datatype Format = Png | Jpeg

  /** The library behaviour the model takes as given.
      `getrgb` is `ImageColor.getrgb` (`None` when it raises), `open` the size
      of a decodable upload (`None` when `Image.open` raises), `truetype`
      whether loading a font file at a size succeeds, `textbbox` the box of a
      text drawn at (0, 0) (`None` when measuring raises, as the bitmap
      fallback font does on characters it lacks), `draws` whether
      `ImageDraw.text` completes once its ink has been accepted,
      `expandedSize` the size `rotate(angle, expand=True)` gives an image, and
      `saves` whether writing a file to a path in a format succeeds. */
  datatype Env = Env(
    getrgb: string -> Option<Rgb>,
    open: seq<byte> -> Option<Size>,
    truetype: (string, int) -> bool,
    textbbox: (Font, string) -> Option<Box>,
    draws: Mark -> bool,
    expandedSize: (Size, int) -> Size,
    saves: (string, Format) -> bool)

  /** The TrueType font both watermark scripts ask for. */
  const ArialBold := "arialbd.ttf"

  /** Fully transparent white, the background of every watermark layer. */
  const ClearWhite := Rgba(255, 255, 255, 0)

  /** Bounds of a C `int` and of a C `long long`. Pillow reads an ink tuple
      with the format "Lii|i": red as a `long long`, green, blue and alpha as
      `int`s. A component outside its type makes the draw raise
      `OverflowError`; inside it Pillow clamps the component to 0..255. */
  const IntMin := -0x8000_0000
  const IntMax := 0x7fff_ffff
  const LongLongMin := -0x8000_0000_0000_0000
  const LongLongMax := 0x7fff_ffff_ffff_ffff

  predicate InkFits(c: Rgba) {
    && LongLongMin <= c.r <= LongLongMax && IntMin <= c.g <= IntMax
    && IntMin <= c.b <= IntMax && IntMin <= c.a <= IntMax
  }

  /** 2^1024 - 2^970: the smallest integer magnitude that rounds to 2^1024
      when CPython converts it to a float, so the conversion raises
      `OverflowError` instead. */
  const FloatOverflow :=
    0xffff_ffff_ffff_fc00_0000_0000_0000_0000_0000_0000_0000_0000_0000_0000_0000_0000_0000_0000_0000_0000_0000_0000_0000_0000_0000_0000_0000_0000_0000_0000_0000_0000_0000_0000_0000_0000_0000_0000_0000_0000_0000_0000_0000_0000_0000_0000_0000_0000_0000_0000_0000_0000_0000_0000_0000_0000_0000_0000_0000_0000_0000_0000_0000_0000

  /** Whether an integer converts to a Python float. */
  predicate FloatFits(n: int) {
    -FloatOverflow < n < FloatOverflow
  }

  /** Whether `ImageDraw.text` draws a mark instead of raising: both its inks
      fit and the library completes the draw. */
  predicate Drawable(env: Env, mark: Mark) {
    && InkFits(mark.fill)
    && (mark.stroke.Stroke? ==> InkFits(mark.stroke.fill))
    && env.draws(mark)
  }

  /** `try: ImageFont.truetype(file, size) except: ImageFont.load_default()`. */
  function LoadFont(env: Env, file: string, size: int): (f: Font)
    ensures f == TrueType(file, size) <==> env.truetype(file, size)
    ensures f != TrueType(file, size) ==> f == DefaultFont
  {
    if env.truetype(file, size) then TrueType(file, size) else DefaultFont
  }

  /** `(bbox[2] - bbox[0], bbox[3] - bbox[1])` of `textbbox((0, 0), text, font)`,
      or `None` when measuring raises. */
  function Measure(env: Env, font: Font, text: string): (e: Option<(int, int)>)
    ensures e.Some? <==> env.textbbox(font, text).Some?
    ensures e.Some? ==> var b := env.textbbox(font, text).value;
      b.left + e.value.0 == b.right && b.top + e.value.1 == b.bottom
  {
    match env.textbbox(font, text)
    case None => None
    case Some(b) => Some((b.right - b.left, b.bottom - b.top))
  }

  /** The size of the image a `Paint` term describes, or `None` when Pillow
      would raise while producing it (a reversed crop box, or a composite of
      two images of different sizes). */
  function PaintSize(env: Env, paint: Paint): Option<Size>
  {
    match paint
    case Decoded(data) => env.open(data)
    case Blank(size, _) => Some(size)
    case Drawn(under, _) => PaintSize(env, under)
    case Rotated(src, angle, expand) =>
      (match PaintSize(env, src)
       case None => None
       case Some(s) => Some(if expand then env.expandedSize(s, angle) else s))
    case Cropped(src, box) =>
      if PaintSize(env, src).Some? && box.left <= box.right && box.top <= box.bottom
      then Some(CropSize(box)) else None
    case Composite(base, over) =>
      if PaintSize(env, base).Some? && PaintSize(env, base) == PaintSize(env, over)
      then PaintSize(env, base) else None
  }

  /** Size of the result of `crop(box)` on a well-formed box. */
  function CropSize(box: Box): Size
    requires box.left <= box.right && box.top <= box.bottom
  {
    Size(box.right - box.left, box.bottom - box.top)
  }

  /** A Pillow image object. */
  class Image {
    var size: Size
    var paint: Paint

    /** `Image.new("RGBA", size, color)`. */
    constructor New(size: Size, color: Rgba)
      ensures this.size == size && paint == Blank(size, color)
    {
      this.size := size;
      paint := Blank(size, color);
    }

    /** `Image.open(...).convert("RGBA")` of data that decodes to `size`. */
    constructor Open(env: Env, data: seq<byte>, size: Size)
      requires env.open(data) == Some(size)
      ensures this.size == size && paint == Decoded(data)
      ensures PaintSize(env, paint) == Some(this.size)
    {
      this.size := size;
      paint := Decoded(data);
    }

    /** `ImageDraw.Draw(image).text(...)`: draws in place and keeps the size;
        `ok` is false when the call raises, and then nothing is drawn. */
    method DrawText(env: Env, mark: Mark) returns (ok: bool)
      modifies this
      ensures ok <==> Drawable(env, mark)
      ensures size == old(size)
      ensures paint == if ok then Drawn(old(paint), mark) else old(paint)
    {
      ok := Drawable(env, mark);
      if ok {
        paint := Drawn(paint, mark);
      }
    }

    /** `rotate(angle, expand=expand)`: a new image; without `expand` it keeps
        the size. Pillow first takes `angle % 360.0`, which raises when the
        angle does not convert to a float; then `r` is `null`. */
    method Rotate(env: Env, angle: int, expand: bool) returns (r: Image?)
      ensures r == null <==> !FloatFits(angle)
      ensures r != null ==> fresh(r)
      ensures r != null ==> r.size == if expand then env.expandedSize(size, angle) else size
      ensures r != null ==> r.paint == Rotated(paint, angle, expand)
    {
      if !FloatFits(angle) {
        return null;
      }
      r := new Image.New(size, Rgba(0, 0, 0, 0));
      r.size := if expand then env.expandedSize(size, angle) else size;
      r.paint := Rotated(paint, angle, expand);
    }

    /** `crop(box)`: a new image exactly the size of the box, even where the
        box reaches outside this image. Pillow refuses a box whose right edge
        is left of its left edge (or bottom above top). */
    method Crop(box: Box) returns (r: Image)
      requires box.left <= box.right && box.top <= box.bottom
      ensures fresh(r)
      ensures r.size == CropSize(box)
      ensures r.paint == Cropped(paint, box)
    {
      r := new Image.New(CropSize(box), Rgba(0, 0, 0, 0));
      r.paint := Cropped(paint, box);
    }

    /** `save(path, format)`: `ok` is false when writing raises; the image
        itself does not change. */
    method Save(env: Env, path: string, format: Format) returns (ok: bool)
      ensures ok <==> env.saves(path, format)
    {
      ok := env.saves(path, format);
    }

    /** The image as a value, as `save` encodes it. */
    function Snapshot(): (p: Picture)
      reads this
      ensures p.size == size && p.paint == paint
    {
      Picture(size, paint)
    }
  }

  /** `Image.alpha_composite(base, over)`: Pillow requires both images to have
      the same size, and the result has that size. */
  method AlphaComposite(base: Image, over: Image) returns (r: Image)
    requires base.size == over.size
    ensures fresh(r)
    ensures r.size == base.size
    ensures r.paint == Composite(base.paint, over.paint)
  {
    r := new Image.New(base.size, Rgba(0, 0, 0, 0));
    r.paint := Composite(base.paint, over.paint);
  }
}

/** The studio page that sends the image and the settings to the Python
    backend: its state, the upload and apply handlers, the sliders, and the
    multipart form it posts. */
module Studio {

  import opened Basics
  import opened Decimal
  import opened Browser
  import Server
  import Pil

  const Positions := {"center", "top-left", "top-right", "bottom-right", "bottom-left"}

  const OpacityMin := 0
  const OpacityMax := 255
  /** Bounds of the size slider; the slider shows `55 - sizeScale`. */
  const SizeMin := 5
  const SizeMax := 50
  const SizeMirror := 55
  const RotationMin := 0
  const RotationMax := 360

  /** What the controls can produce: each slider value within its bounds and
      a position from the list. */
  predicate InRange(position: string, opacity: int, sizeScale: int, rotation: int) {
    && OpacityMin <= opacity <= OpacityMax
    && SizeMin <= sizeScale <= SizeMax
    && RotationMin <= rotation <= RotationMax
    && position in Positions
  }

  /** The size slider's thumb position for a divisor. */
  function SliderPosition(sizeScale: int): int
  {
    SizeMirror - sizeScale
  }

  /** The divisor set when the size slider moves to `v`. */
  function ScaleAt(v: int): int
  {
    SizeMirror - v
  }

  /** A part of the multipart body. */
  datatype Entry = FilePart(name: string, file: File) | TextPart(name: string, value: string)

  /** `formData.append(...)` in the handler's order. */
  function FormEntries(file: File, text: string, position: string, opacity: int,
                       sizeScale: int, rotation: int, color: string): seq<Entry>
  {
    [FilePart("file", file), TextPart("text", text), TextPart("position", position),
     TextPart("opacity", ShowInt(opacity)), TextPart("size", ShowInt(sizeScale)),
     TextPart("rotation", ShowInt(rotation)), TextPart("color", color)]
  }

  /** The request the server sees for a multipart body: file parts and text
      fields by name, the first part of a name winning as with `.get`. */
  function Receive(entries: seq<Entry>): Server.Request
  {
    if entries == [] then Server.Request(map[], map[])
    else
      var rest := Receive(entries[1..]);
      match entries[0]
      case FilePart(name, file) => rest.(files := rest.files[name := file.data])
      case TextPart(name, value) => rest.(form := rest.form[name := value])
  }

  /** How a `fetch` to the backend ended. `json` is `None` when the body is
      not JSON; `image` and `error` are the fields it may carry. */
  datatype Reply =
    | NetworkError
    | Answer(ok: bool, json: Option<Json>)

  datatype Json = Json(image: Option<string>, error: Option<string>)

  datatype Notice = WrongFormat | NoImage | Applied | Failed

  /** The page component's state. */
  class Page {
    var selectedImage: Option<string>
    var fileObject: Option<File>
    var processedImage: Option<string>
    var isProcessing: bool

    var watermarkText: string
    var position: string
    var opacity: int
    var sizeScale: int
    var rotation: int
    var color: string

    var notices: seq<Notice>

    /** What the controls keep true: every slider value within its bounds,
        a position from the list, and a preview exactly when a file is held. */
    ghost predicate Valid()
      reads this
    {
      && InRange(position, opacity, sizeScale, rotation)
      && (selectedImage.Some? <==> fileObject.Some?)
    }

    constructor ()
      ensures Valid()
      ensures selectedImage == None && fileObject == None && processedImage == None
      ensures !isProcessing && notices == []
      ensures watermarkText == "CONFIDENTIAL" && position == "center"
      ensures opacity == 180 && sizeScale == 15 && rotation == 45 && color == "#E50914"
    {
      selectedImage, fileObject, processedImage, isProcessing := None, None, None, false;
      watermarkText, position := "CONFIDENTIAL", "center";
      opacity, sizeScale, rotation, color := 180, 15, 45, "#E50914";
      notices := [];
    }

    /** `handleImageUpload`: a non-image file only raises a notice; an image
        becomes the held file and the preview, and the previous result is dropped. */
    method HandleImageUpload(file: Option<File>, objectUrl: string)
      requires Valid()
      modifies this`selectedImage, this`fileObject, this`processedImage, this`notices
      ensures Valid()
      ensures file.None? ==> unchanged(this)
      ensures file.Some? && !IsImage(file.value) ==>
        && notices == old(notices) + [WrongFormat]
        && selectedImage == old(selectedImage) && fileObject == old(fileObject)
        && processedImage == old(processedImage)
      ensures file.Some? && IsImage(file.value) ==>
        && selectedImage == Some(objectUrl) && fileObject == file && processedImage == None
        && notices == old(notices)
    {
      if file.Some? {
        if !IsImage(file.value) {
          notices := notices + [WrongFormat];
          return;
        }
        selectedImage := Some(objectUrl);
        fileObject := file;
        processedImage := None;
      }
    }

    method SetWatermarkText(text: string)
      modifies this`watermarkText
      ensures watermarkText == text
    {
      watermarkText := text;
    }

    /** The position select only offers the five positions. */
    method SetPosition(p: string)
      requires Valid() && p in Positions
      modifies this`position
      ensures Valid() && position == p
    {
      position := p;
    }

    method SetColor(c: string)
      modifies this`color
      ensures color == c
    {
      color := c;
    }

    /** The opacity slider reports values in `[0, 255]`. */
    method OnOpacityChange(v: int)
      requires Valid() && OpacityMin <= v <= OpacityMax
      modifies this`opacity
      ensures Valid() && opacity == v
    {
      opacity := v;
    }

    /** The size slider reports values in `[5, 50]` and stores `55 - v`. */
    method OnSizeChange(v: int)
      requires Valid() && SizeMin <= v <= SizeMax
      modifies this`sizeScale
      ensures Valid() && sizeScale == ScaleAt(v) && SliderPosition(sizeScale) == v
    {
      sizeScale := SizeMirror - v;
    }

    /** The rotation slider reports values in `[0, 360]` and is disabled
        unless the position is `center`. */
    method OnRotationChange(v: int)
      requires Valid() && RotationMin <= v <= RotationMax
      modifies this`rotation
      ensures Valid()
      ensures rotation == if position == "center" then v else old(rotation)
    {
      if position == "center" {
        rotation := v;
      }
    }

    /** The first half of `applyWatermark`: without a held file it only
        raises a notice; otherwise it marks the page busy and builds the form
        it posts. */
    method BeginApply() returns (form: Option<seq<Entry>>)
      requires Valid()
      modifies this`isProcessing, this`notices
      ensures Valid()
      ensures fileObject.None? ==>
        form == None && isProcessing == old(isProcessing) && notices == old(notices) + [NoImage]
      ensures fileObject.Some? ==>
        && isProcessing && notices == old(notices)
        && form == Some(FormEntries(fileObject.value, watermarkText, position, opacity,
                                    sizeScale, rotation, color))
    {
      if fileObject.None? {
        notices := notices + [NoImage];
        return None;
      }
      isProcessing := true;
      var entries := [FilePart("file", fileObject.value)];
      entries := entries + [TextPart("text", watermarkText)];
      entries := entries + [TextPart("position", position)];
      entries := entries + [TextPart("opacity", ShowInt(opacity))];
      entries := entries + [TextPart("size", ShowInt(sizeScale))];
      entries := entries + [TextPart("rotation", ShowInt(rotation))];
      entries := entries + [TextPart("color", color)];
      assert entries == FormEntries(fileObject.value, watermarkText, position, opacity,
                                    sizeScale, rotation, color);
      form := Some(entries);
    }

    /** The second half of `applyWatermark`, once the request has settled:
        only an OK answer replaces the result; every other outcome raises a
        notice; the page is no longer busy in every case. */
    method FinishApply(reply: Reply)
      requires Valid()
      modifies this`processedImage, this`isProcessing, this`notices
      ensures Valid() && !isProcessing
      ensures reply.Answer? && reply.ok && reply.json.Some? ==>
        processedImage == reply.json.value.image && notices == old(notices) + [Applied]
      ensures !(reply.Answer? && reply.ok && reply.json.Some?) ==>
        processedImage == old(processedImage) && notices == old(notices) + [Failed]
    {
      if reply.Answer? && reply.ok && reply.json.Some? {
        processedImage := reply.json.value.image;
        notices := notices + [Applied];
      } else {
        notices := notices + [Failed];
      }
      isProcessing := false;
    }
  }

  /** Showing a divisor on the slider and reading it back is the identity,
      both ways round, and the slider's bounds are the divisor's bounds. */
  lemma SliderRoundTrip(s: int, v: int)
    ensures ScaleAt(SliderPosition(s)) == s
    ensures SliderPosition(ScaleAt(v)) == v
    ensures SizeMin <= v <= SizeMax <==> SizeMin <= ScaleAt(v) <= SizeMax
  {
  }

  /** Moving the size slider right never makes the font smaller: the backend
      font size `width // (55 - v)` grows with `v`. */
  lemma SliderRightIsBigger(width: nat, v1: int, v2: int)
    requires SizeMin <= v1 <= v2 <= SizeMax
    ensures width / ScaleAt(v1) <= width / ScaleAt(v2)
  {
    QuotientAntitone(width, ScaleAt(v2), ScaleAt(v1));
  }

  /** A larger divisor gives a smaller or equal quotient. */
  lemma QuotientAntitone(n: nat, a: int, b: int)
    requires 0 < a <= b
    ensures n / b <= n / a
  {
    var q := n / b;
    QuotientBelow(n, b);
    MultiplyMonotone(q, a, b);
    QuotientIsLargest(n, a, q);
  }

  /** `(n / b) * b` does not exceed `n`. */
  lemma QuotientBelow(n: nat, b: int)
    requires 0 < b
    ensures 0 <= n / b && (n / b) * b <= n
  {
    assert n == (n / b) * b + n % b;
  }

  lemma MultiplyMonotone(q: nat, a: int, b: int)
    requires a <= b
    ensures q * a <= q * b
  {
  }

  /** `n / a` is the largest `r` with `r * a <= n`. */
  lemma QuotientIsLargest(n: nat, a: int, r: nat)
    requires 0 < a && r * a <= n
    ensures r <= n / a
  {
    var d := n / a;
    assert d * a + n % a == n;
    if r > d {
      MultiplyMonotone(a, d + 1, r);
    }
  }

  /** The file part and the text fields the server reads from the form. */
  lemma {:induction false} ReceivedForm(file: File, text: string, position: string, opacity: int,
                                       sizeScale: int, rotation: int, color: string)
    ensures var req := Receive(FormEntries(file, text, position, opacity, sizeScale, rotation, color));
      && req.files == map["file" := file.data]
      && req.form == map["text" := text, "position" := position, "opacity" := ShowInt(opacity),
                          "size" := ShowInt(sizeScale), "rotation" := ShowInt(rotation),
                          "color" := color]
  {
    var e := FormEntries(file, text, position, opacity, sizeScale, rotation, color);
    assert Receive(e[7..]) == Server.Request(map[], map[]);
    assert Receive(e[6..]) == Server.Request(map[], map["color" := color]);
    assert Receive(e[5..]) == Server.Request(map[], map["color" := color, "rotation" := ShowInt(rotation)]);
    assert Receive(e[4..]).form == map["color" := color, "rotation" := ShowInt(rotation),
                                       "size" := ShowInt(sizeScale)];
    assert Receive(e[3..]).form == Receive(e[4..]).form["opacity" := ShowInt(opacity)];
    assert Receive(e[2..]).form == Receive(e[3..]).form["position" := position];
    assert Receive(e[1..]).form == Receive(e[2..]).form["text" := text];
    assert Receive(e[1..]).files == map[];
  }

  /** Every setting the page sends reaches the handler unchanged: the numbers
      survive `toString()` and `int(...)`, and no field falls back to a default. */
  lemma FormArrivesIntact(file: File, text: string, position: string, opacity: int,
                          sizeScale: int, rotation: int, color: string)
    requires IsSafeInteger(opacity) && IsSafeInteger(sizeScale) && IsSafeInteger(rotation)
    ensures var req := Receive(FormEntries(file, text, position, opacity, sizeScale, rotation, color));
      && "file" in req.files && req.files["file"] == file.data
      && Server.ReadParams(req.form)
         == Server.Ok(Server.Params(text, position, opacity, sizeScale, rotation, color))
  {
    ReceivedForm(file, text, position, opacity, sizeScale, rotation, color);
    ParseShowInt(opacity);
    ParseShowInt(sizeScale);
    ParseShowInt(rotation);
  }

  /** From this page the handler never divides by zero: the size slider keeps
      the divisor in `[5, 50]`, so a request fails only when the colour or the
      image cannot be read or the text cannot be measured or drawn. */
  lemma NeverDividesByZero(env: Pil.Env, file: File, text: string, position: string,
                           opacity: int, sizeScale: int, rotation: int, color: string)
    requires SizeMin <= sizeScale <= SizeMax
    requires IsSafeInteger(opacity) && IsSafeInteger(rotation)
    ensures var p := Server.Params(text, position, opacity, sizeScale, rotation, color);
            var r := Server.Respond(env, Receive(FormEntries(file, text, position, opacity,
                                                             sizeScale, rotation, color)));
      && r.body != Server.ErrorJson(Server.DivisionByZero)
      && (r.status == 200 <==>
            && env.getrgb(color).Some? && env.open(file.data).Some?
            && Server.Watermark(env, env.open(file.data).value, p, env.getrgb(color).value).Ok?)
  {
    FormArrivesIntact(file, text, position, opacity, sizeScale, rotation, color);
  }

  /** Settings the controls can produce, with a colour whose components are
      bytes (as a `#rrggbb` value gives), are answered 200 exactly when the
      colour and the image can be read, the text can be measured and the
      library completes the draw: neither the divisor nor the inks can make
      the handler fail. */
  lemma InRangeSettingsServed(env: Pil.Env, file: File, text: string, position: string,
                              opacity: int, sizeScale: int, rotation: int, color: string)
    requires InRange(position, opacity, sizeScale, rotation)
    requires env.getrgb(color).Some? ==> Pil.IsByteRgb(env.getrgb(color).value)
    ensures var p := Server.Params(text, position, opacity, sizeScale, rotation, color);
            var r := Server.Respond(env, Receive(FormEntries(file, text, position, opacity,
                                                             sizeScale, rotation, color)));
      && r.body != Server.ErrorJson(Server.DivisionByZero)
      && (r.status == 200 <==>
            && env.getrgb(color).Some? && env.open(file.data).Some?
            && var m := Server.PlannedMark(env, env.open(file.data).value, p, env.getrgb(color).value);
               m.Some? && env.draws(m.value))
  {
    NeverDividesByZero(env, file, text, position, opacity, sizeScale, rotation, color);
    var p := Server.Params(text, position, opacity, sizeScale, rotation, color);
    if env.getrgb(color).Some? && env.open(file.data).Some? {
      var m := Server.PlannedMark(env, env.open(file.data).value, p, env.getrgb(color).value);
      if m.Some? {
        Server.ByteInkFits(env, m.value.origin, p, m.value.font, env.getrgb(color).value);
      }
    }
  }

  /** The form a page keeping its invariant posts (the one `BeginApply`
      builds) is served as `InRangeSettingsServed` says. */
  lemma ValidPageServed(page: Page, env: Pil.Env)
    requires page.Valid() && page.fileObject.Some?
    requires env.getrgb(page.color).Some? ==> Pil.IsByteRgb(env.getrgb(page.color).value)
    ensures var file := page.fileObject.value;
            var p := Server.Params(page.watermarkText, page.position, page.opacity,
                                   page.sizeScale, page.rotation, page.color);
            var r := Server.Respond(env, Receive(FormEntries(file, page.watermarkText, page.position,
                                                             page.opacity, page.sizeScale,
                                                             page.rotation, page.color)));
      && r.body != Server.ErrorJson(Server.DivisionByZero)
      && (r.status == 200 <==>
            && env.getrgb(page.color).Some? && env.open(file.data).Some?
            && var m := Server.PlannedMark(env, env.open(file.data).value, p, env.getrgb(page.color).value);
               m.Some? && env.draws(m.value))
  {
    InRangeSettingsServed(env, page.fileObject.value, page.watermarkText, page.position,
                          page.opacity, page.sizeScale, page.rotation, page.color);
  }
}

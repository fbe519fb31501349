# Netflix-style watermark: a Dafny model

The repository puts a cinema-style text watermark on an uploaded picture in
three ways. This project models the three, and the studio page that drives
the backend.

- **The Flask backend** (`backend/server.py`, `process_image`). It reads the
  upload and the form fields `text`, `position`, `opacity`, `size`,
  `rotation` and `color`, and fills in defaults for absent fields.
  - The font size is `int(width / size)`.
  - The fill is the parsed colour with the opacity as alpha. The outline is
    black with the same alpha and 3 pixels wide.
  - For `center`, the text is drawn in the middle of a transparent layer
    three times the image size. The layer is rotated without expansion and
    its middle cell is cropped out.
  - For the four corners, the text is drawn on a layer the image's size, at
    a margin of `int(width * 0.05)`.
  - The layer is alpha-composited over the image and returned as a PNG data
    URI. A missing file is answered with 400. Every exception is answered
    with 500.
- **The stand-alone script** (`backend/main.py`, `create_watermark`). It
  draws a fixed red text twice, once plain and once with a 2-pixel black
  outline. The text is centred on a layer twice the image size. The layer is
  rotated 45 degrees with expansion, cropped back to the image size about
  the centre, and composited over the image.
- **The browser-only page** (`src/app/page.tsx`, `applyWatermark`). It draws
  the image on a `<canvas>`, then draws the text with the 2D context:
  - a placeholder outline at (0, 0) that sets the style;
  - then, between `save` and `restore`, an outline and a fill at an anchor
    and alignment chosen by the position.
- **The studio page** (`frontend/src/app/page.tsx`). It holds the chosen
  file and the settings. Its size slider shows `55 - sizeScale`. It posts
  the multipart form to the backend and shows the answer or a failure notice.

Modules:

- `Basics`: `Option`, bytes.
- `Numerics`: Python `int()` and `//`, and JavaScript `Math.floor`.
- `Decimal`: JavaScript `toString()` of an integer, and Python `int(s)`.
- `Browser`: a chosen `File`.
- `Pil`: the Pillow calls used. Each image is a class whose size is tracked
  and whose pixels are a symbolic `Paint` term.
- `Server`: `process_image` as a method, proved equal to the function
  `Respond`.
- `Script`: `create_watermark` as a method, proved equal to the function
  `Expected`.
- `Canvas2D`: the canvas element and its 2D context, with the draw calls as
  a trace.
- `CanvasPage`: the browser-only page component and its `onload` drawing.
- `Studio`: the studio page component, its sliders and its form.

Library behaviour that the code only calls is a parameter of type
`Pil.Env`. This covers:

- `ImageColor.getrgb`;
- decoding an upload, which gives its size or fails;
- whether `ImageFont.truetype` loads;
- `textbbox`, or its failure (the bitmap fallback font raises on characters it lacks);
- whether `ImageDraw.text` completes once its inks are accepted;
- the size `rotate(..., expand=True)` produces;
- whether `save` can write a path in a format.

Pillow's own ink rule is modelled directly, not as a parameter. Pillow
reads a fill or outline colour tuple with the format "Lii|i": red as a C
`long long`, green, blue and alpha as C `int`s. A component outside its
type makes `draw.text` raise `OverflowError`. Inside it, Pillow clamps the
component to 0..255.

The properties hold for every such behaviour.

Where a reader might expect otherwise, the model follows the code:

- The backend does not clamp opacity: the colour tuple carries the number as
  given. Pillow clamps it to 0..255 when it draws, and raises when it does
  not fit a C `int` (an `opacity` field of "2147483648", say). The handler
  then answers 500.
- A `size` of 0 makes `width / font_scale` raise, and the handler answers 500.
- A negative `size` gives a negative font size. The model then follows the
  `truetype`-or-default fallback.
- Empty text is still drawn and composited.
- There is no minimum font size.
- The backend outline is a fixed 3 pixels and the script's a fixed 2, not a
  fraction of the font size.
- On the canvas page, the outline is `fontSize / 15`. Below 20 pixels of
  width that is 0, which the context ignores, so the width stays 1.
- The canvas shadow is set only after the placeholder stroke. It applies to
  the positioned text only.
- On the canvas page the rotation is commented out, so the transform is
  translation only.

## Model

| member | source | states |
|---|---|---|
| Numerics.Trunc | backend/server.py:39 | Python `int(x)` truncates toward zero: for x >= 0 the result is the largest integer not above x, for x < 0 the smallest not below it |
| Numerics.Floor | src/app/page.tsx:84 | `Math.floor(x)` is the integer r with r <= x < r + 1 |
| Numerics.TruncDiv | backend/server.py:39 | integer division rounding toward zero, characterised by its bounds for a positive and for a negative divisor |
| Numerics.FloorDiv | backend/server.py:63 | Python `a // b` for b > 0 is the q with q*b <= a < q*b + b, also for negative a |
| Numerics.FloorOfQuotient | src/app/page.tsx:84 | the floor of the real quotient a / b is the integer quotient |
| Numerics.TruncOfQuotient | backend/server.py:39 | `int(a / b)` on the real quotient equals truncating integer division, for either sign of b |
| Numerics.TwentiethOfWidth | backend/server.py:76 | `int(w * 0.05)` and `Math.floor(w / 20)` are both `w // 20` |
| Decimal.ShowNat | frontend/src/app/page.tsx:64-66 | the decimal text of a number is non-empty, all digits, without a leading zero |
| Decimal.ShowInt | frontend/src/app/page.tsx:64-66 | `toString()` of an integer is non-empty and starts with '-' exactly when the integer is negative |
| Decimal.ParseInt | backend/server.py:22-24 | `int(s)` succeeds exactly when 1 to 4300 ASCII digits follow an optional sign, and is negative only after a '-' |
| Decimal.ShowNatLength | frontend/src/app/page.tsx:64-66 | a number below 10^(k+1) is written with at most k + 1 digits |
| Decimal.SafeIntegerDigits | frontend/src/app/page.tsx:64-66 | a safe integer's text has at most 16 digits, within the `int()` limit |
| Decimal.DigitsOfShowNat | frontend/src/app/page.tsx:64-66 | reading the digits `toString()` wrote gives back the number |
| Decimal.ParseShowInt | frontend/src/app/page.tsx:64-66 | `int(n.toString())` is n for every safe integer (magnitude at most 2^53 - 1) |
| Decimal.ParseShowNat | frontend/src/app/page.tsx:64-66 | the text of a non-negative safe integer parses back to it |
| Decimal.ParseShowNegative | frontend/src/app/page.tsx:64-66 | the text of a negative safe integer parses back to it |
| Decimal.ShowIntInjective | frontend/src/app/page.tsx:64-66 | distinct safe integers are sent as distinct strings |
| Browser.IsImage | src/app/page.tsx:45 | a file is accepted when its MIME type starts with `image/` |
| Pil.LoadFont | backend/server.py:40-43 | the font is the requested TrueType font exactly when it loads, and the default font otherwise |
| Pil.Measure | backend/server.py:47-49 | measuring fails exactly when `textbbox` raises; otherwise the width and height are the spans of the box |
| Pil.InkFits | backend/server.py:64 | red fits a C `long long`, green, blue and alpha fit a C `int` |
| Pil.Drawable | backend/server.py:64 | `draw.text` completes exactly when the fill and the outline ink fit and the library draws |
| Pil.Image.New | backend/server.py:60 | a new image has the requested size and is uniformly the requested colour |
| Pil.Image.Open | backend/server.py:35-36 | an image opened from data that decodes to a size has that size, its pixels are the decoded data, and that paint has that size |
| Pil.Image.DrawText | backend/server.py:64 | drawing succeeds exactly when the mark is drawable; then the pixels gain that one mark in place, otherwise they are unchanged; the size is kept |
| Pil.Image.Save | backend/main.py:61-62 | saving succeeds exactly when the library can write the path in that format |
| Pil.Image.Rotate | backend/server.py:66 | rotation fails exactly when the angle does not convert to a float (magnitude 2^1024 - 2^970 or more); otherwise it gives a new image, the same size without expansion and the expanded size with it |
| Pil.FloatFits | backend/server.py:66 | the integers CPython converts to a float without `OverflowError` |
| Pil.Image.Crop | backend/server.py:70 | a crop by a well-formed box gives a new image exactly the box's size |
| Pil.Image.Snapshot | backend/server.py:89 | the encoded picture has the image's size and pixels |
| Pil.AlphaComposite | backend/server.py:87 | compositing two images of equal size gives a new image of that size |
| Server.Field | backend/server.py:18-19 | a text field is its value when present and the default when absent |
| Server.IntField | backend/server.py:22-24 | an absent numeric field gives the default; a present one succeeds exactly when it parses; a failure names the field |
| Server.ReadParams | backend/server.py:18-28 | the fields in the order the handler reads them, the first `int(...)` that raises ending the request |
| Server.FontSize | backend/server.py:39 | `int(width / font_scale)`, `None` when the division raises |
| Server.Padding | backend/server.py:76 | `int(width * 0.05)` |
| Server.TextColor | backend/server.py:53 | the parsed colour with the opacity as alpha |
| Server.OutlineColor | backend/server.py:56 | black with the opacity as alpha |
| Server.OverlaySize | backend/server.py:60 | the overlay is three times the image in each direction |
| Server.CenterOrigin | backend/server.py:63-64 | the text's corner: overlay centre less half the text box |
| Server.CenterCrop | backend/server.py:68-70 | the image-sized window centred in the rotated overlay |
| Server.CornerOrigin | backend/server.py:76-82 | the text's corner for each corner position, (0, 0) for any other |
| Server.WatermarkMark | backend/server.py:64 | the drawn text with its fill and its 3-pixel outline |
| Server.PlannedMark | backend/server.py:39-64 | `None` exactly when measuring raises; otherwise the text in the loaded font with its fill and outline colours, at the centre origin or the corner origin of the measured extent |
| Server.Watermark | backend/server.py:39-84 | the mark is drawn only when it is drawable and is then the planned mark, and for `center` only when the rotation converts to a float; the only failures are measuring, drawing and rotating |
| Server.Layer | backend/server.py:58-84 | the text layer of each branch |
| Server.Render | backend/server.py:87 | the composite of the decoded image and the text layer |
| Server.Respond | backend/server.py:12-96 | the answer is 200, 400 or 500, and 200 exactly when it carries an image |
| Server.DrawLayer | backend/server.py:58-84 | the layer is made, fresh and of the image's size with pixels `Layer`, exactly when the mark of the position is drawable and, for `center`, the angle converts to a float; otherwise the failure is `CannotDraw` or `CannotRotate` in that order |
| Server.ProcessImage | backend/server.py:12-96 | the handler, step by step on image objects, answers exactly `Respond`: 400 without a file, 500 on each exception in source order (parsing, colour, decoding, division, measuring, drawing, rotating), otherwise the composite |
| Server.MissingFileRejected | backend/server.py:14-15 | a request without a `file` part is answered 400 "No file uploaded" |
| Server.EmptyFormDefaults | backend/server.py:18-28 | an empty form reads as CONFIDENTIAL, center, opacity 128, size 20, rotation 45, #E50914 |
| Server.ResponseKinds | backend/server.py:12-96 | 200 exactly when the file is present, the numbers parse (at most 4300 digits each), the colour and image are readable, the size is not 0, the text can be measured and drawn and, for `center`, the rotation converts to a float; 400 exactly when the file is missing; 500 otherwise |
| Server.ZeroScaleFails | backend/server.py:39 | a size of 0 is always answered 500, with the division error once colour and image are readable |
| Server.FontSizeTruncates | backend/server.py:39 | the font size is `width // size` for a positive size and minus `width // -size` for a negative one |
| Server.MarkColors | backend/server.py:53-56 | fill and outline carry the requested alpha as given; the fill keeps the colour's RGB; the outline is black and 3 pixels wide |
| Server.HugeRotationFails | backend/server.py:24-96 | for `center`, a rotation that parses but does not convert to a float always gets 500 |
| Server.RotateFailure | backend/server.py:64-70 | once the `center` mark is drawable, the answer fails exactly when the angle is no float, with `CannotRotate` |
| Server.OversizedOpacityFails | backend/server.py:22-96 | an opacity that parses but does not fit a C `int` always gets 500 |
| Server.OversizedInkRaises | backend/server.py:53-64 | a mark whose opacity does not fit a C `int` cannot be drawn |
| Server.ByteInkFits | backend/server.py:53-64 | with colour and opacity in 0..255 a mark is drawable exactly when the library draws it |
| Server.CenterGeometry | backend/server.py:59-70 | the overlay is 3w by 3h, the crop is its middle cell (w, h)-(2w, 2h), and the text box is centred in the crop to within half a pixel |
| Server.CornerTable | backend/server.py:76-82 | the four corner origins with margin `w // 20`; any other position puts the text at (0, 0) |
| Server.CornersMirror | backend/server.py:79-82 | right corners keep the same margin from the right edge as left corners from the left, and bottom from the bottom as top from the top |
| Server.RotationIgnoredOffCenter | backend/server.py:59-84 | outside `center` the rotation angle changes neither the mark drawn nor the picture |
| Server.RotationFieldIgnoredOffCenter | backend/server.py:24-84 | outside `center` replacing a parsable rotation field (at most 4300 digits) by another parsable one does not change the answer |
| Server.OverlongNumberFails | backend/server.py:22-24 | a number field of more than 4300 digits always gets 500 |
| Server.WatermarkInkRule | backend/server.py:53-64 | the mark is drawn exactly when red fits a C `long long`, green, blue and opacity fit a C `int`, and the library draws |
| Server.RenderKeepsSize | backend/server.py:59-87 | in both branches the watermark layer has the image's size, so the composite is defined and keeps the input size |
| Server.OutputKeepsInputSize | backend/server.py:87-92 | a successful answer carries a picture of the uploaded image's size |
| Script.FontSize | backend/main.py:16 | `int(width / 15)` |
| Script.LayerSize | backend/main.py:12 | the text layer is twice the image in each direction |
| Script.TextOrigin | backend/main.py:31-32 | the text's corner centred in the layer |
| Script.CropBox | backend/main.py:47-53 | the image-sized window centred in the rotated layer |
| Script.Marks | backend/main.py:36-40 | the plain and the outlined draw at one origin |
| Script.Watermarked | backend/main.py:43-56 | the composite of the image and the cropped, rotated layer |
| Script.Expected | backend/main.py:4-67 | a saved picture has the decoded size, and only follows two successful saves |
| Script.CreateWatermark | backend/main.py:4-67 | the script, step by step on image objects, produces exactly `Expected`: the first exception (opening, measuring, either draw, the JPEG or the PNG save) printed, otherwise the composite saved |
| Script.OutcomeKinds | backend/main.py:4-67 | the picture is saved exactly when the input opens, the text is measured, both draws complete and both saves succeed; an unopenable input or a failed save is printed |
| Script.InksFit | backend/main.py:36-40 | the script's fixed inks fit, so a draw fails only when the library raises |
| Script.FontSizeIsFifteenth | backend/main.py:16 | `int(width / 15)` is `width // 15` |
| Script.TextCentredInLayer | backend/main.py:31-32 | the layer is 2w by 2h and the text box is centred in it, rounded up-left by at most half a pixel |
| Script.CropBoxCentred | backend/main.py:47-53 | the crop is exactly w by h, its margins differ by at most one pixel, and it lies inside a rotated layer at least the image size |
| Script.DrawOrder | backend/main.py:36-40 | the layer is the blank layer with the plain mark and then the outlined mark, at one origin in red with alpha 180, the second with a 2-pixel black outline |
| Script.OutputKeepsInputSize | backend/main.py:53-56 | the saved picture has the input image's size and every step producing it is defined |
| Canvas2D.Anchor | src/app/page.tsx:104-131 | the canvas point a draw call lands on: its point moved by the translation |
| Canvas2D.Canvas.constructor | src/app/page.tsx:358 | a new canvas is 300 by 150, empty, in the initial context state |
| Canvas2D.Canvas.SetWidth | src/app/page.tsx:76 | setting the width clears the bitmap and resets the context state and stack |
| Canvas2D.Canvas.SetHeight | src/app/page.tsx:77 | setting the height clears the bitmap and resets the context state and stack |
| Canvas2D.Canvas.SetFont | src/app/page.tsx:86 | only the font changes |
| Canvas2D.Canvas.SetFillStyle | src/app/page.tsx:87 | only the fill style changes |
| Canvas2D.Canvas.SetLineWidth | src/app/page.tsx:90 | the line width changes to a positive value; zero or negative values are ignored |
| Canvas2D.Canvas.SetStrokeStyle | src/app/page.tsx:91 | only the stroke style changes |
| Canvas2D.Canvas.SetShadowColor | src/app/page.tsx:94 | only the shadow colour changes |
| Canvas2D.Canvas.SetShadowBlur | src/app/page.tsx:95 | the blur changes to a non-negative value; negative values are ignored |
| Canvas2D.Canvas.SetTextAlign | src/app/page.tsx:102 | only the alignment changes |
| Canvas2D.Canvas.SetTextBaseline | src/app/page.tsx:103 | only the baseline changes |
| Canvas2D.Canvas.Translate | src/app/page.tsx:104 | the origin moves by (dx, dy) |
| Canvas2D.Canvas.Save | src/app/page.tsx:99 | the current state is pushed |
| Canvas2D.Canvas.Restore | src/app/page.tsx:134 | the last saved state is popped and becomes current; nothing happens on an empty stack |
| Canvas2D.Canvas.DrawImage | src/app/page.tsx:80 | one image draw in the current state is appended |
| Canvas2D.Canvas.StrokeText | src/app/page.tsx:92 | one outline draw in the current state is appended |
| Canvas2D.Canvas.FillText | src/app/page.tsx:107 | one fill draw in the current state is appended |
| CanvasPage.FontSize | src/app/page.tsx:84 | `Math.floor(img.width / 20)` |
| CanvasPage.FontSpec | src/app/page.tsx:86 | the CSS font string for a size |
| CanvasPage.Padding | src/app/page.tsx:97 | `img.width * 0.05`, unrounded |
| CanvasPage.Place | src/app/page.tsx:101-132 | alignment, translation and point for each of the five positions; none for any other |
| CanvasPage.TextStyle | src/app/page.tsx:86-91 | the style after setting font, fill, line width and stroke |
| CanvasPage.ShadowedStyle | src/app/page.tsx:94-95 | that style with the black 10-pixel shadow |
| CanvasPage.PlacedCalls | src/app/page.tsx:99-134 | the outline and fill of the placed text |
| CanvasPage.WatermarkCalls | src/app/page.tsx:76-134 | the whole draw trace: image, placeholder outline, placed outline and fill |
| CanvasPage.DrawWatermark | src/app/page.tsx:76-134 | the canvas takes the image size, its draw calls are exactly `WatermarkCalls`, and the state saved before positioning is restored |
| CanvasPage.DrawImageAndStyle | src/app/page.tsx:76-95 | the image is drawn in the initial state, then the placeholder outline in the text style, then the shadow is set |
| CanvasPage.DrawPlaced | src/app/page.tsx:99-134 | the positioned outline and fill are appended, and state and stack are as before `save` |
| CanvasPage.Page.constructor | src/app/page.tsx:33-39 | no image, no result, not busy, text NETFLIX ORIGINAL, position center |
| CanvasPage.Page.HandleImageUpload | src/app/page.tsx:42-64 | no file changes nothing; a non-image only adds a wrong-format notice; an image becomes the selection and clears the result |
| CanvasPage.Page.SetWatermarkText | src/app/page.tsx:230 | the text becomes the input's value |
| CanvasPage.Page.SetPosition | src/app/page.tsx:247 | the position becomes the selected value |
| CanvasPage.Page.ApplyWatermark | src/app/page.tsx:66-74 | without an image or a canvas nothing happens; otherwise the page is busy and an onload is pending with the current text and position |
| CanvasPage.Page.ImageLoaded | src/app/page.tsx:75-149 | the canvas takes the image size and holds `WatermarkCalls` (nothing without a context), its state is the shadowed style (the initial one without a context) with an empty stack; the result is that canvas; the page is no longer busy and has an applied notice |
| CanvasPage.ImageThenPlaceholder | src/app/page.tsx:80-95 | the image is drawn first in the initial state; the placeholder outline at (0, 0) has no shadow; every later draw has blur 10 |
| CanvasPage.StrokeThenFill | src/app/page.tsx:101-132 | for the five positions the outline precedes the fill with the same text, point and state; any other position draws nothing more |
| CanvasPage.Anchors | src/app/page.tsx:97-132 | each position's anchor and alignment, with the margin `w * 0.05`; the centre by translating to (w/2, h/2) |
| CanvasPage.StyleOfText | src/app/page.tsx:84-90 | the font is `w // 20` pixels; the outline is that over 15, or stays 1 below 20 pixels of width |
| CanvasPage.AnchorsMirror | src/app/page.tsx:109-132 | right anchors mirror left ones about the vertical centre line and bottom ones mirror top ones, with the alignment mirrored |
| CanvasPage.BottomRightExample | src/app/page.tsx:127-131 | a 1000 by 500 image gets a 50-pixel font and a bottom-right anchor at (950, 450) |
| Studio.InRange | frontend/src/app/page.tsx:152-202 | the values the position select and the three sliders can produce |
| Studio.SliderPosition | frontend/src/app/page.tsx:195 | the size slider shows `55 - sizeScale` |
| Studio.ScaleAt | frontend/src/app/page.tsx:195 | moving the size slider to v stores `55 - v` |
| Studio.FormEntries | frontend/src/app/page.tsx:58-69 | the seven parts appended, numbers by `toString()` |
| Studio.Receive | frontend/src/app/page.tsx:72-75 | the request the server reads from a multipart body |
| Studio.Page.constructor | frontend/src/app/page.tsx:20-31 | the defaults: CONFIDENTIAL, center, opacity 180, size 15, rotation 45, #E50914, and the control invariant holds |
| Studio.Page.HandleImageUpload | frontend/src/app/page.tsx:36-48 | no file changes nothing; a non-image only adds a notice; an image becomes the held file and preview and clears the result |
| Studio.Page.SetWatermarkText | frontend/src/app/page.tsx:147 | the text becomes the input's value |
| Studio.Page.SetPosition | frontend/src/app/page.tsx:152 | the position becomes one of the five offered, keeping the invariant |
| Studio.Page.SetColor | frontend/src/app/page.tsx:170 | the colour becomes the picker's value |
| Studio.Page.OnOpacityChange | frontend/src/app/page.tsx:188 | the opacity becomes the slider value, within [0, 255] |
| Studio.Page.OnSizeChange | frontend/src/app/page.tsx:195 | the divisor becomes `55 - v`, stays in [5, 50], and the slider shows v again |
| Studio.Page.OnRotationChange | frontend/src/app/page.tsx:202 | the rotation follows the slider only when the position is center |
| Studio.Page.BeginApply | frontend/src/app/page.tsx:50-69 | without a file only a no-image notice; otherwise the page is busy and the form is the seven fields in order |
| Studio.Page.FinishApply | frontend/src/app/page.tsx:77-89 | an OK JSON answer replaces the result with its image; any other outcome keeps it and adds a failure notice; the page is no longer busy |
| Studio.SliderRoundTrip | frontend/src/app/page.tsx:195 | slider position and divisor are inverse both ways, and [5, 50] maps onto itself |
| Studio.SliderRightIsBigger | frontend/src/app/page.tsx:195 | moving the size slider right never makes the backend font smaller |
| Studio.QuotientAntitone | frontend/src/app/page.tsx:195 | a larger divisor gives a quotient no larger |
| Studio.ReceivedForm | frontend/src/app/page.tsx:58-69 | the server sees the file and exactly the six text fields the page appended |
| Studio.FormArrivesIntact | frontend/src/app/page.tsx:58-69 | for safe integers, the handler reads back exactly the page's text, position, opacity, size, rotation and colour |
| Studio.NeverDividesByZero | frontend/src/app/page.tsx:195 | with the divisor from the slider (and a safe opacity and rotation) the handler never fails by division, and answers 200 exactly when colour and image are readable and the text is measured and drawn |
| Studio.InRangeSettingsServed | frontend/src/app/page.tsx:58-69 | settings the controls produce, with a byte colour, are answered 200 exactly when colour and image are readable, the text is measured and the library draws it: neither divisor nor ink can fail |
| Studio.ValidPageServed | frontend/src/app/page.tsx:50-69 | the form a page keeping its invariant posts is served as above |

## Left out

- Floating point: `width / font_scale`, `width * 0.05`, `img.width / 20` and `fontSize / 15` are computed on exact reals, so rounding at very large widths is not modelled.
- Decimal.ShowInt: models JavaScript's `toString()` faithfully only for safe integers (`IsSafeInteger`, magnitude at most 2^53 - 1); larger numbers lose digits in a double, and from 10^21 print in exponent form, so `ParseShowInt`, `ShowIntInjective`, `FormArrivesIntact` and `NeverDividesByZero` are stated for safe integers only. The page sends only slider values, all within 0..360.
- Decimal.ParseInt: accepts only an optional sign and at most 4300 ASCII digits (CPython's default `int_max_str_digits`); the whitespace, underscores and other Unicode digits that Python's `int()` also accepts are not modelled, and neither is an interpreter older than the digit limit or one configured with a different limit.
- Pil.InkFits: follows current Pillow, which reads red as a C `long long`; releases that read every component as a C `int` would also refuse a red beyond 2^31 - 1.
- Colour parsing, image decoding, font loading, text measurement, whether a draw completes, the size of an expanded rotation and whether a save succeeds are parameters (`Pil.Env`), because they are library code.
- Server.ProcessImage: an exception from `Image.new`, `crop`, `alpha_composite` or the PNG encoding, or one from `rotate` other than a non-float angle (running out of memory, say), is not modelled; those steps are taken to succeed, so the 500 they would give is missing from `Respond` and `ResponseKinds`. The angle that does not convert to a float is modelled (`CannotRotate`).
- Script.CreateWatermark: the same steps are taken to succeed; the JPEG of `convert("RGB")` and the PNG written after it are modelled as the one composited picture, and what is left at the path when the PNG save fails is not modelled.
- Pixel values are not modelled: glyph rasterisation, rotation resampling, the alpha blend and the canvas shadow are recorded only as the calls that produce them.
- Rotation direction: Pillow rotates counter-clockwise, but the model records only the angle.
- PNG and JPEG encoding, base64, the data URI and `toDataURL` are not modelled: a result is the picture or canvas trace that would be encoded.
- Flask routing, CORS, `print` of the error and the `__main__` blocks are not modelled, because they are I/O.
- The JSON error text is `str(e)` of the exception; the model gives the failure kind instead.
- `fetch`, `response.json()` and `URL.createObjectURL` are parameters: `Studio.Reply` and the object URL are supplied by the caller.
- Toast titles and descriptions are reduced to notice kinds; the slider labels and the rest of the page layout are not modelled.
- CanvasPage.Page.ApplyWatermark: only one pending `onload` is modelled; a second apply before the first image loads replaces it.
- React state updates are applied sequentially; batching and re-render timing are not modelled.
- `src/app/layout.tsx` and the styling constants are not part of this model, because they only lay out the page.

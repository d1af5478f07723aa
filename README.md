# Image optimizer core, modelled in Dafny

A model of the decision logic of a Go HTTP image-transformation service. The service reads
query parameters, fetches an image and runs it through a fixed pipeline of transformations:
resize, fit, background, blur, gamma, modulate, sharpen, device-pixel ratio, contain
background, enlargement guard and tint. It can also render a line of text to an image and
encode the result in a requested format. Pixel work is done by foreign libraries
(disintegration/imaging, gg, freetype). The model covers what the service itself decides:

- `Color` (internal/util/color.go): colour specs. A spec is the literal `transparent`, a named
  colour looked up after lower-casing, or a hex number with at most one leading `#`. The hex
  number is unpacked into R, G, B and A from its low 32 bits.
- `Strconv` and `Strings`: the parts of Go's `strconv` and `strings` that the core relies on.
  These are `ParseUint(s, 16, 64)` with its syntax and range errors, `Atoi` on int64, ASCII
  `ToLower`, and `Split`.
- `Params` (internal/util/params.go): the query string becomes a fully populated
  `QueryParams` record, with defaults for absent or unparsable values.
- `ImageUtil` (internal/util/image.go): the image-kind to format-name table, and the encoder
  choice for a format name and quality.
- `Service` (internal/service/image.go): the pipeline. The pixel library is a function
  parameter `lib`. `ProcessImageWithParams` threads the image through the stages and records
  each library call in a `Trace`. The result is the replay of those calls on the input. Each
  stage is a small method proved against a function that says which calls it makes. It also
  covers the centring offset of `OverlayImage` and `GetImageMetadata`.
- `TextRender` (internal/service/image.go): `RenderTextToImage`. It fills in default options,
  selects the baseline and alignment branches, and draws on a `Canvas` class that stands for
  the gg drawing context.

Where the behaviour could be read two ways, the model follows the code:

- The enlargement guard compares the requested size with the image's *current* size, after
  the earlier stages have run, and resizes to exactly that size. So it never changes the
  dimensions of a non-empty image. A 100x100 image requested at 200x200 without enlargement is first enlarged by
  the resize stage and comes back 200x200 (`Service.EnlargedDespiteGuard`).
- Only the exact lower-case literal `transparent` is special. `Transparent` goes through the
  name table and the hex parser.
- A six-digit hex colour is read as a number, so `#RRGGBB` gives R=0, G=RR, B=GG and A=BB.
  Only the low eight hex digits of a longer number matter.
- An unparsable `bg` colour is ignored, and the canvas gets the zero colour. An unparsable
  `cbg` or `tint` colour fails the whole request.

Floating-point query values are the datatype `Params.Float` (a finite real, ±infinity or
NaN). The float parser is a parameter `read`. The colour-name table is a parameter `names`
in which no key starts with `#` (`Color.PlainNames`). The set of font files that
load is a parameter `fonts`.

## Model

| member | source | states |
|---|---|---|
| Strings.ToLower | internal/util/color.go:18 | each character is lower-cased when it is an ASCII capital; the length is kept |
| Strings.ToLowerIdempotent | internal/util/image.go:31 | lower-casing leaves no capital, and lower-casing twice is lower-casing once |
| Strings.SplitCount | internal/service/image.go:70 | `Split` on a separator gives one more piece than there are separators, and no piece holds the separator |
| Strings.JoinSplit | internal/service/image.go:70 | joining the pieces of `Split` with the separator gives back the input |
| Strings.SplitNoSeparator | internal/service/image.go:69 | a string without the separator splits into itself alone |
| Strings.SplitAtSeparator | internal/service/image.go:69 | the piece before the first separator comes first, and the rest splits on its own |
| Strconv.HexScanValue | internal/util/color.go:31 | the digit loop of `ParseUint` succeeds exactly when every character is a hex digit and the value fits in 64 bits; the value is the reference hex value; an all-hex input that fails fails with a range error |
| Strconv.ParseUint16 | internal/util/color.go:31 | `ParseUint(s, 16, 64)` succeeds exactly on a non-empty all-hex string of value at most 2^64-1; the value is the hex value; the empty string is a syntax error |
| Strconv.SixteenDigitsFit | internal/util/color.go:31 | every non-empty string of at most 16 hex digits parses |
| Strconv.Hex2 | internal/util/color.go:36-39 | two hex digits whose value is the given byte |
| Strconv.Atoi | internal/util/params.go:80 | a result is always in int64 range and comes from an optional sign followed by at least one decimal digit |
| Strconv.AtoiPlusSign | internal/util/params.go:80 | a leading `+` before an unsigned string is accepted and changes neither the value nor the range check |
| Strconv.AtoiLeadingZeros | internal/util/params.go:80 | zeros between the optional sign and the digits change neither the value nor the range check |
| Strconv.AtoiSpellings | internal/util/params.go:80 | `+7` and `007` read as 7, and `-007` as -7 |
| Strconv.AtoiNegativeZero | internal/util/params.go:80 | `-0`, `-00` and every minus sign on zeros read as 0 |
| Strconv.AtoiFormatInt | internal/util/params.go:80 | every int64 round-trips through its decimal spelling |
| Strconv.AtoiOutOfRange | internal/util/params.go:80-83 | a well-formed decimal outside int64 is rejected |
| Color.UnpackPack | internal/util/color.go:35-40 | unpacking bytes 24, 16, 8 and 0 of a packed colour gives the colour back |
| Color.UnpackLow32 | internal/util/color.go:35-40 | only the value modulo 2^32 decides the unpacked colour |
| Color.ParseColor | internal/util/color.go:12-41 | `transparent` gives the zero colour; a name found after lower-casing gives its table entry; otherwise success exactly when the rest after one `#` is a valid 64-bit hex literal, whose value is unpacked |
| Color.TransparentIsCaseSensitive | internal/util/color.go:13-15 | `transparent` is the zero colour while `Transparent` and `TRANSPARENT` are syntax errors when the table lacks the name |
| Color.HexScanIgnoresCase | internal/util/color.go:18-31 | the hex parse gives the same result for two spellings that agree after lower-casing |
| Color.CaseInsensitive | internal/util/color.go:18-25 | two specs equal after lower-casing, neither the `transparent` literal, parse to the same result |
| Color.HashSpecNotNamed | internal/util/color.go:28-30 | a spec starting with `#` is never a table name, and exactly one `#` is stripped |
| Color.HashOnlyOnce | internal/util/color.go:28-31 | `#` alone and `##...` are syntax errors |
| Color.EightDigitChannels | internal/util/color.go:35-40 | `#RRGGBBAA` yields R, G, B and A from the four digit pairs in order |
| Color.FormatHexRoundTrip | internal/util/color.go:28-40 | every colour parses back from its `#rrggbbaa` spelling |
| Color.SixDigitShift | internal/util/color.go:31-40 | `#RRGGBB` yields R=0, G=RR, B=GG, A=BB |
| Color.HighDigitsDiscarded | internal/util/color.go:31-40 | hex digits before the last eight do not change the colour, within 16 digits |
| Color.InvalidSpecFails | internal/util/color.go:31-34 | a spec that is not the literal, not a name and not a valid hex literal fails, with the zero colour |
| Params.Get | internal/util/params.go:45 | the first value of a key, or `""` when the key is absent or has no value |
| Params.ParseInt | internal/util/params.go:79-85 | a string Atoi accepts gives exactly the Atoi value; every string Atoi rejects, the empty one included, gives the default; an int64 default gives an int64 result |
| Params.ParseFloat | internal/util/params.go:87-93 | a string the parser accepts gives exactly the parsed value; a rejected string, the empty one included, gives the default |
| Params.ParseQueryParams | internal/util/params.go:42-78 | every integer field is an int64, and every float field is its default or the parsed query value |
| Params.ParseIntPassesThrough | internal/util/params.go:79-85 | a valid int64 decimal is returned as is, negatives included |
| Params.ParseIntFallsBack | internal/util/params.go:79-85 | the empty string and out-of-range decimals give the default |
| Params.ParseFloatFallsBack | internal/util/params.go:87-93 | a string the float parser rejects gives the default |
| Params.NoKeysGiveDefaults | internal/util/params.go:42-78 | an empty query gives every default: sizes 0, DPR 1, max-age 31536000, compression 6, quality 80, font size 48, corner radius 20, flags false, strings empty |
| Params.AbsentIntFallsBack | internal/util/params.go:79-85 | an absent integer key gives the default |
| Params.UnparsableIntTakesDefault | internal/util/params.go:46-74 | every integer field whose value Atoi rejects takes that field's default |
| Params.UnparsableFloatTakesDefault | internal/util/params.go:48-56 | every float field whose value the parser rejects takes that field's default |
| Params.ParsedIntTaken | internal/util/params.go:46-74 | every integer field whose value Atoi accepts takes exactly that value, so `w=200` gives width 200 |
| Params.ParsedFloatTaken | internal/util/params.go:48-56 | every float field whose value the parser accepts takes exactly that value |
| Params.FlagNeedsExactTrue | internal/util/params.go:51-73 | the three flags are set exactly when the value is `true` |
| Params.StringFieldsVerbatim | internal/util/params.go:45-75 | string fields are the first query value verbatim, or empty |
| Params.MalformedQualityDefaults | internal/util/params.go:67-85 | `q=abc` gives quality 80 |
| ImageUtil.GetImageFormat | internal/util/image.go:15-28 | RGBA and NRGBA give `png`, Gray and YCbCr give `jpeg`, and anything else gives `unknown`, each in both directions |
| ImageUtil.ChooseEncoder | internal/util/image.go:30-55 | PNG, GIF, TIFF and WebP are chosen exactly for their lower-cased names, and JPEG for every other format |
| ImageUtil.PngBuckets | internal/util/image.go:35-44 | the four PNG levels are chosen exactly for quality below 25, 25-49, 50-74 and 75 and above |
| ImageUtil.FormatCaseInsensitive | internal/util/image.go:31 | formats equal after lower-casing choose the same encoder |
| ImageUtil.QualityPassedThrough | internal/util/image.go:50-53 | WebP is lossy with the quality unchanged, and JPEG keeps the quality |
| ImageUtil.JpegFallthrough | internal/util/image.go:52-53 | `""`, `jpeg`, `jpg` and `json` choose JPEG |
| ImageUtil.UpperCaseFormats | internal/util/image.go:31-51 | `PNG`, `GIF`, `TIFF` and `WEBP` choose the same encoders as their lower-case names |
| Service.ReplayAppend | internal/service/image.go:23-129 | replaying two call sequences in turn is replaying their concatenation |
| Service.ResizeCalls | internal/service/image.go:25-35 | the resize stage fires exactly when width or height is positive; a zero dimension is taken from the image and any other value is passed as is |
| Service.FitCalls | internal/service/image.go:38-49 | only the four mode literals act; `contain` and `inside` issue the same call |
| Service.BackgroundCalls | internal/service/image.go:52-55 | a background spec always gives one canvas of the current size, in the parsed colour when the spec parses and in the zero colour when it does not |
| Service.ModulateCalls | internal/service/image.go:68-78 | modulate acts exactly when the spec has two commas, with brightness, saturation and hue in that order |
| Service.DprCalls | internal/service/image.go:85-89 | the ratio stage fires for every ratio except exactly 1 and scales the current size |
| Service.ContainCalls | internal/service/image.go:92-100 | fails exactly when the spec fails to parse; otherwise resizes to exactly (width, height) and pastes onto a canvas of that size in the parsed colour |
| Service.GuardCalls | internal/service/image.go:103-108 | fires exactly when a target exceeds the current size, and resizes to the current size |
| Service.TintCalls | internal/service/image.go:111-117 | fails exactly when the spec fails to parse; otherwise one tint layer in the parsed colour |
| Service.ResizeStage | internal/service/image.go:25-35 | makes the calls of `ResizeCalls` on the current image |
| Service.FitStage | internal/service/image.go:38-49 | makes the calls of `FitCalls` when a mode is given |
| Service.BackgroundStage | internal/service/image.go:52-55 | makes the calls of `BackgroundCalls` |
| Service.FilterStage | internal/service/image.go:58-83 | makes the blur, gamma or sharpen call exactly when its guard holds |
| Service.ModulateArguments | internal/service/image.go:68-78 | on `a,b,c` with no comma in the parts, the three calls carry the parsed parts in order, with fallbacks 1, 1 and 0 for a part the parser rejects |
| Service.ModulateSpecShape | internal/service/image.go:69-70 | every spec with exactly two commas is `a,b,c` with comma-free parts, so `ModulateArguments` covers every spec that acts |
| Service.ModulateStage | internal/service/image.go:68-78 | makes the calls of `ModulateCalls` |
| Service.DprStage | internal/service/image.go:85-89 | makes the calls of `DprCalls` |
| Service.ContainStage | internal/service/image.go:92-100 | fails with the parse error, or makes the calls of `ContainCalls` |
| Service.GuardStage | internal/service/image.go:103-108 | makes the calls of `GuardCalls` |
| Service.TintStage | internal/service/image.go:111-117 | fails with the parse error, or makes the calls of `TintCalls` |
| Service.AdjustStages | internal/service/image.go:23-89 | resize, fit, background, blur, gamma, modulate, sharpen and DPR make exactly their stage's calls, each on the image the earlier stages produced, and the image is the replay of those calls |
| Service.ProcessImageWithParams | internal/service/image.go:23-129 | each stage's calls, computed on the image that stage receives; an error exactly when the contain or tint colour fails, contain first, with no later call; on success the result is the replay of every call on the input |
| Service.ModulateFallbacks | internal/service/image.go:70-75 | `,,` gives brightness 1, saturation 1 and hue 0, and two or four parts do nothing |
| Service.GuardKeepsSize | internal/service/image.go:103-108 | with a library that sizes like `imaging.Resize`, the guard never changes the width or height of a non-empty image, and an empty image stays empty |
| Service.ContainGivesTargetBox | internal/service/image.go:92-100 | with a library that sizes canvases like `imaging.New`, a contain stage with a colour yields exactly (width, height) when both are positive and the 0x0 image otherwise; without a colour the image is unchanged |
| Service.EnlargedDespiteGuard | internal/service/image.go:25-108 | with a library that sizes like `imaging.Resize`, a 100x100 image requested at 200x200 without enlargement comes back 200x200 |
| Service.OverlayOffset | internal/service/image.go:287-293 | equal sizes give (0, 0); twice the offset is the size difference within one pixel; a smaller overlay lies inside the base |
| Service.OverlayImage | internal/service/image.go:287-293 | one full-opacity overlay call, centred to within one pixel on each axis: at the origin for equal sizes, and entirely inside the base for an overlay no larger than it |
| Service.GetImageMetadata | internal/service/image.go:278-285 | reports the image's width and height, and a format that is `png`, `jpeg` or `unknown` |
| TextRender.OrDefault | internal/service/image.go:132-140 | a zero option takes the default and any other value is kept |
| TextRender.OrDefaultString | internal/service/image.go:142-150 | an empty option takes the default and any other value is kept |
| TextRender.ResolveTextOptions | internal/service/image.go:132-177 | every option that was set is kept, and each zero or empty one takes its own default: width and height 800, background `white`, text colour `black`, size 48, family `Arial`, alignment `center`, corner radius 20, baseline `middle` |
| TextRender.ResolveIdempotent | internal/service/image.go:132-177 | resolved options are left alone, so resolving twice is resolving once |
| TextRender.EmptyOptionsDefaults | internal/service/image.go:132-177 | with no options: 800, 800, white, black, 48, Arial, center, corner radius 20, middle |
| TextRender.BaselineBranch | internal/service/image.go:221-239 | each listed baseline selects its own branch, and every unknown value selects the middle one |
| TextRender.AnchorFor | internal/service/image.go:240-247 | left, center and right anchor at the same fraction of the width as the anchor fraction, 0, 1/2 and 1; any other value draws nothing |
| TextRender.FaceFor | internal/service/image.go:201-219 | the requested family's own font when its file loads, else Go Regular, at the requested size |
| TextRender.Canvas.constructor | internal/service/image.go:179 | a new context of the absolute given size, as `image.Rect` orders the corners, with nothing drawn |
| TextRender.Canvas.SetColor | internal/service/image.go:191-199 | sets the current colour and nothing else |
| TextRender.Canvas.Clear | internal/service/image.go:192 | fills with the current colour, covering what was drawn |
| TextRender.Canvas.SetFontFace | internal/service/image.go:219 | sets the face and nothing else |
| TextRender.Canvas.DrawStringAnchored | internal/service/image.go:242-246 | appends the string with the current colour and face |
| TextRender.Canvas.Image | internal/service/image.go:249 | the snapshot holds the size, the fill and the drawn strings |
| TextRender.TextsDrawn | internal/service/image.go:221-247 | one string exactly when the alignment is listed: the text, in the text colour and the selected face, at the alignment's anchor on the baseline's branch |
| TextRender.DrawText | internal/service/image.go:201-247 | sets the face to `FaceFor` the family and size, draws the strings of `TextsDrawn`, and leaves the colour and fill alone |
| TextRender.RenderPlan | internal/service/image.go:131-250 | each colour failure gives its own error, background first; a successful render is cleared to a colour and draws at most the one text, in the parsed text colour and the selected face, at the alignment's anchor on the baseline's branch |
| TextRender.RenderTextToImage | internal/service/image.go:131-250 | the result is `RenderPlan`: background colour, then text colour, then face and text |
| TextRender.RenderErrors | internal/service/image.go:186-198 | rendering fails exactly when the defaulted background or text colour fails to parse; a background failure gives `BackgroundColorInvalid`, and otherwise a text-colour failure gives `TextColorInvalid`, each with its parse error |
| TextRender.RenderSizeAndFill | internal/service/image.go:179-247 | a render has the absolute defaulted size, equal to it when positive, is filled with the background colour, and holds the text once exactly for a listed alignment |
| TextRender.NegativeWidthMirrored | internal/service/image.go:132-244 | `w=-5` gives a canvas 5 wide, with centred text anchored at x = -2.5 |
| TextRender.UnknownAlignDrawsNothing | internal/service/image.go:240-247 | an alignment such as `justify` draws nothing |
| TextRender.DefaultRender | internal/service/image.go:132-249 | with no options the text is drawn in black, centred at x = 400 on an 800x800 white canvas, on the middle baseline, in Go Regular 48 |

## Left out

- Pixel operations of disintegration/imaging, gg and freetype are not modelled. This covers
  resizing, fitting, filling, blurring, gamma, brightness, saturation, sharpening, overlays,
  canvases, clipping and glyph drawing. They are foreign code. They are the uninterpreted
  `Service.Library` parameter or the `TextRender.Canvas` record of calls.
- The hue rotation in pkg/imaging/imaging.go is not modelled. It is float64 HSL arithmetic
  and appears only as the `AdjustHue` call.
- The size `imaging.Resize` gives for a target with exactly one zero side, which keeps the
  aspect ratio, is not modelled. `Service.ResizesLikeImaging` fixes only the exact and the
  empty cases.
- The DPR scaling `int(float64(Dx) * DPR)` is not computed. The call records the current
  size and the ratio.
- The vertical text positions of the baseline branches are float arithmetic on font
  metrics. Only the branch is recorded.
- The text x coordinate is taken as an exact real, `width / 2` for centred text, not as a
  float64.
- Float values are not parsed: `strconv.ParseFloat` is the abstract `read` parameter. Float
  comparisons are modelled (`> 0`, `!= 1`, with NaN).
- `FetchImage` is not modelled. It does network I/O and image decoding.
- The following are not modelled: `EncodeImageResponse`, internal/handler/image.go,
  internal/httputil/response.go and cmd/server/main.go. They cover HTTP headers, base64 and
  JSON wrapping, routing and server start-up.
- Query-string decoding (`r.URL.Query()`) is not modelled. The model starts from the decoded
  `url.Values`, as a map from keys to lists of values.
- The contents of `colornames.Map` are abstract (`names`), and so is the file system behind
  `gg.LoadFontFace` (`fonts`).
- Strings.ToLower: folds ASCII letters only, not Unicode.
- The rounded-corner clip in `RenderTextToImage` is not modelled. It has no effect on the
  model's observable result.
- The interlace and page-selection branches of `ProcessImageWithParams` are empty, so they
  issue no call.
- TextRender.RenderTextToImage: assumes the bundled Go Regular font always parses, so the
  "failed to load default font" error is not modelled.
- The float32 conversion of the WebP quality and the quality clamping inside the JPEG
  encoder are not modelled. They are foreign.
- The wrapped error messages (`errors.Wrap`, `fmt.Errorf`) are kept only as the error kind
  and the underlying parse error.

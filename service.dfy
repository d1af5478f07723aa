/**
 * The orchestration of internal/service/image.go: the transformation pipeline
 * `ProcessImageWithParams`, the centred `OverlayImage` and `GetImageMetadata`.
 *
 * Pixel work belongs to foreign libraries (disintegration/imaging and the hue rotation of
 * pkg/imaging). The model gives them a single entry point, a `Library` function from an image
 * and a call to the resulting image, and records every call the core makes in a `Trace`:
 * which stages fire, in which order, and with which arguments.
 */
module Service {
  import opened Wrappers
  import opened Strings
  import opened Strconv
  import opened Color
  import opened Params
  import opened ImageUtil

  /** One call into the imaging libraries, with the arguments the core computes for it. */
  datatype Op =
    | Resize(width: int, height: int)                      // imaging.Resize(img, w, h, Lanczos)
    | Fit(width: int, height: int)                         // imaging.Fit(img, w, h, Lanczos)
    | Fill(width: int, height: int)                        // imaging.Fill(img, w, h, Center, Lanczos)
    | OverlayOnCanvas(width: int, height: int, bg: RGBA)   // OverlayCenter(New(w, h, bg), img, 1.0)
    | Blur(sigma: Float)                                   // imaging.Blur
    | AdjustGamma(gamma: Float)                            // imaging.AdjustGamma
    | AdjustBrightness(percentage: Float)                  // imaging.AdjustBrightness
    | AdjustSaturation(percentage: Float)                  // imaging.AdjustSaturation
    | AdjustHue(shift: Float)                              // pkgimaging.AdjustHue
    | Sharpen(sigma: Float)                                // imaging.Sharpen
    | ScaleByRatio(fromWidth: nat, fromHeight: nat, dpr: Float)// Resize(img, int(Dx*dpr), int(Dy*dpr), Lanczos)
    | PasteOnCanvas(width: int, height: int, bg: RGBA)     // PasteCenter(New(w, h, bg), img)
    | TintOverlay(tint: RGBA)                              // Overlay(img, &Uniform{tint}, Pt(0, 0), 0.5)
    | OverlayAt(top: Image, x: int, y: int, opacity: real) // Overlay(img, top, Pt(x, y), opacity)

  /** The foreign pixel library: what each call makes of the image it is given. */
  type Library = (Image, Op) -> Image

  /** The image obtained by making the calls `ops`, in order, starting from `img`. */
  function Replay(lib: Library, img: Image, ops: seq<Op>): Image
    decreases |ops|
  {
    if ops == [] then img else Replay(lib, lib(img, ops[0]), ops[1..])
  }

  /** Replaying two call sequences one after the other is replaying their concatenation. */
  lemma {:induction false} ReplayAppend(lib: Library, img: Image, a: seq<Op>, b: seq<Op>)
    ensures Replay(lib, img, a + b) == Replay(lib, Replay(lib, img, a), b)
    decreases |a|
  {
    if a == [] {
      assert a + b == b;
    } else {
      assert (a + b)[0] == a[0];
      assert (a + b)[1..] == a[1..] + b;
      ReplayAppend(lib, lib(img, a[0]), a[1..], b);
    }
  }

  /** A single call is one application of the library. */
  lemma ReplayOne(lib: Library, img: Image, op: Op)
    ensures Replay(lib, img, [op]) == lib(img, op)
  {
    assert [op][1..] == [];
  }

  /** The library calls of one run, stage by stage, in the pipeline's fixed order. */
  datatype Trace = Trace(
    resize: seq<Op>, fit: seq<Op>, background: seq<Op>, blur: seq<Op>, gamma: seq<Op>,
    modulate: seq<Op>, sharpen: seq<Op>, dpr: seq<Op>, contain: seq<Op>, guard: seq<Op>,
    tint: seq<Op>)
  {
    /** Calls made before the background stage. */
    function BeforeBackground(): seq<Op>
    {
      resize + fit
    }

    /** Calls made before the DPR stage. */
    function BeforeDpr(): seq<Op>
    {
      BeforeBackground() + background + blur + gamma + modulate + sharpen
    }

    /** Calls made before the enlargement guard. */
    function BeforeGuard(): seq<Op>
    {
      BeforeDpr() + dpr + contain
    }

    /** Every call of the run, in order. */
    function Calls(): seq<Op>
    {
      BeforeGuard() + guard + tint
    }
  }

  /** The two error returns of `ProcessImageWithParams`, each wrapping the colour-parse error. */
  datatype PipelineError = ContainBgColorInvalid(cause: NumError) | TintColorInvalid(cause: NumError)

  // ---------------------------------------------------------------- what each stage issues

  /** Resize stage, given the input image: a zero target dimension is taken from the image. */
  function ResizeCalls(p: QueryParams, at: Image): (ops: seq<Op>)
    ensures ops != [] <==> p.Width > 0 || p.Height > 0
    ensures ops != [] ==> ops == [Resize(if p.Width == 0 then at.width else p.Width,
                                         if p.Height == 0 then at.height else p.Height)]
  {
    if p.Width > 0 || p.Height > 0 then
      [Resize(if p.Width == 0 then at.width else p.Width, if p.Height == 0 then at.height else p.Height)]
    else []
  }

  /** Fit stage: only the four mode literals act, `contain` and `inside` alike. */
  function FitCalls(fit: string, width: int, height: int): (ops: seq<Op>)
    ensures ops == [] <==> fit !in {"contain", "fill", "inside", "outside"}
    ensures fit == "contain" || fit == "inside" ==> ops == [Fit(width, height)]
    ensures fit == "fill" ==> ops == [Fill(width, height)]
    ensures fit == "outside" ==> ops == [Resize(width, height)]
  {
    if fit == "contain" then [Fit(width, height)]
    else if fit == "fill" then [Fill(width, height)]
    else if fit == "inside" then [Fit(width, height)]
    else if fit == "outside" then [Resize(width, height)]
    else []
  }

  /** Background stage: a canvas of the input image's size; a colour that fails to parse is the zero colour. */
  function BackgroundCalls(names: NameTable, bg: string, at: Image): (ops: seq<Op>)
    ensures bg == "" <==> ops == []
    ensures bg != "" ==> |ops| == 1 && ops[0].OverlayOnCanvas?
                         && ops[0].width == at.width && ops[0].height == at.height
    ensures ColorFails(names, bg) ==> ops == [OverlayOnCanvas(at.width, at.height, Transparent)]
    ensures bg != "" && ParseColor(names, bg).Ok? ==>
              ops == [OverlayOnCanvas(at.width, at.height, ParseColor(names, bg).value)]
  {
    if bg == "" then [] else [OverlayOnCanvas(at.width, at.height, ColorValue(ParseColor(names, bg)))]
  }

  /** Modulate stage: acts only on exactly three comma-separated parts, brightness then saturation then hue. */
  function ModulateCalls(read: FloatReader, spec: string): (ops: seq<Op>)
    ensures ops != [] <==> Count(spec, ',') == 2
    ensures ops != [] ==> |ops| == 3 && ops[0].AdjustBrightness? && ops[1].AdjustSaturation? && ops[2].AdjustHue?
  {
    SplitCount(spec, ',');
    var parts := Split(spec, ',');
    if spec != "" && |parts| == 3 then
      [ AdjustBrightness(ParseFloat(read, parts[0], Finite(1.0))),
        AdjustSaturation(ParseFloat(read, parts[1], Finite(1.0))),
        AdjustHue(ParseFloat(read, parts[2], Finite(0.0))) ]
    else []
  }

  /** DPR stage: fires for any ratio other than exactly 1 (NaN included). */
  function DprCalls(dpr: Float, at: Image): (ops: seq<Op>)
    ensures ops != [] <==> dpr != Finite(1.0)
    ensures ops != [] ==> ops == [ScaleByRatio(at.width, at.height, dpr)]
  {
    if dpr != Finite(1.0) then [ScaleByRatio(at.width, at.height, dpr)] else []
  }

  /** Contain-background stage: resize to exactly the target box and paste onto a canvas of that size. */
  function ContainCalls(names: NameTable, cbg: string, width: int, height: int): (r: Result<seq<Op>, NumError>)
    ensures r.Err? <==> ColorFails(names, cbg)
    ensures r.Ok? && cbg != "" ==>
              |r.value| == 2 && r.value[0] == Resize(width, height)
              && r.value[1].PasteOnCanvas? && r.value[1].width == width && r.value[1].height == height
    ensures r.Ok? && cbg != "" ==> r.value[1] == PasteOnCanvas(width, height, ParseColor(names, cbg).value)
    ensures cbg == "" ==> r == Ok([])
  {
    if cbg == "" then Ok([])
    else
      match ParseColor(names, cbg)
      case Err(e) => Err(e)
      case Ok(c) => Ok([Resize(width, height), PasteOnCanvas(width, height, c)])
  }

  /**
   * Enlargement guard: compares the targets with the dimensions of the image it is given (the
   * current image, not the original), and resizes to exactly those dimensions.
   */
  function GuardCalls(p: QueryParams, at: Image): (ops: seq<Op>)
    ensures ops != [] <==> p.WithoutEnlarge && (p.Width > at.width || p.Height > at.height)
    ensures ops != [] ==> ops == [Resize(at.width, at.height)]
  {
    if p.WithoutEnlarge && (p.Width > at.width || p.Height > at.height) then [Resize(at.width, at.height)]
    else []
  }

  /** Tint stage: a half-opacity uniform layer of the tint colour. */
  function TintCalls(names: NameTable, tint: string): (r: Result<seq<Op>, NumError>)
    ensures r.Err? <==> ColorFails(names, tint)
    ensures tint == "" ==> r == Ok([])
    ensures r.Ok? && tint != "" ==> |r.value| == 1 && r.value[0].TintOverlay?
    ensures r.Ok? && tint != "" ==> r.value == [TintOverlay(ParseColor(names, tint).value)]
  {
    if tint == "" then Ok([])
    else
      match ParseColor(names, tint)
      case Err(e) => Err(e)
      case Ok(c) => Ok([TintOverlay(c)])
  }

  // ---------------------------------------------------------------- the stages

  /** Resize if a width or height is given; a zero one is taken from the image. */
  method ResizeStage(lib: Library, p: QueryParams, cur: Image) returns (next: Image, ops: seq<Op>)
    ensures ops == ResizeCalls(p, cur)
    ensures next == Replay(lib, cur, ops)
  {
    next, ops := cur, [];
    if p.Width > 0 || p.Height > 0 {
      var width, height := p.Width, p.Height;
      if width == 0 {
        width := cur.width;
      }
      if height == 0 {
        height := cur.height;
      }
      ReplayOne(lib, cur, Resize(width, height));
      next, ops := lib(cur, Resize(width, height)), [Resize(width, height)];
    }
  }

  /** The fit-mode switch; an unknown mode leaves the image alone. */
  method FitStage(lib: Library, p: QueryParams, cur: Image) returns (next: Image, ops: seq<Op>)
    ensures ops == (if p.Fit == "" then [] else FitCalls(p.Fit, p.Width, p.Height))
    ensures next == Replay(lib, cur, ops)
  {
    next, ops := cur, [];
    if p.Fit != "" {
      var op: Option<Op> := None;
      if p.Fit == "contain" {
        op := Some(Fit(p.Width, p.Height));
      } else if p.Fit == "fill" {
        op := Some(Fill(p.Width, p.Height));
      } else if p.Fit == "inside" {
        op := Some(Fit(p.Width, p.Height));
      } else if p.Fit == "outside" {
        op := Some(Resize(p.Width, p.Height));
      }
      if op.Some? {
        ReplayOne(lib, cur, op.value);
        next, ops := lib(cur, op.value), [op.value];
      }
    }
  }

  /** Background colour: the parse error is dropped and the zero colour used. */
  method BackgroundStage(lib: Library, names: NameTable, p: QueryParams, cur: Image) returns (next: Image, ops: seq<Op>)
    ensures ops == BackgroundCalls(names, p.Background, cur)
    ensures next == Replay(lib, cur, ops)
  {
    next, ops := cur, [];
    if p.Background != "" {
      var bgColor := ColorValue(ParseColor(names, p.Background));
      var op := OverlayOnCanvas(cur.width, cur.height, bgColor);
      ReplayOne(lib, cur, op);
      next, ops := lib(cur, op), [op];
    }
  }

  /** A filter stage (blur, gamma, sharpen): one call when its guard holds. */
  method FilterStage(lib: Library, guard: bool, op: Op, cur: Image) returns (next: Image, ops: seq<Op>)
    ensures ops == (if guard then [op] else [])
    ensures next == Replay(lib, cur, ops)
  {
    next, ops := cur, [];
    if guard {
      ReplayOne(lib, cur, op);
      next, ops := lib(cur, op), [op];
    }
  }

  /** Modulate: brightness, saturation and hue from exactly three comma-separated parts. */
  method ModulateStage(lib: Library, read: FloatReader, p: QueryParams, cur: Image) returns (next: Image, ops: seq<Op>)
    ensures ops == ModulateCalls(read, p.Modulate)
    ensures next == Replay(lib, cur, ops)
  {
    next, ops := cur, [];
    if p.Modulate != "" {
      var parts := Split(p.Modulate, ',');
      if |parts| == 3 {
        var brightness := ParseFloat(read, parts[0], Finite(1.0));
        var saturation := ParseFloat(read, parts[1], Finite(1.0));
        var hue := ParseFloat(read, parts[2], Finite(0.0));
        next, ops := cur, [];
        var op := AdjustBrightness(brightness);
        ReplayAppend(lib, cur, ops, [op]);
        ReplayOne(lib, next, op);
        next, ops := lib(next, op), ops + [op];
        op := AdjustSaturation(saturation);
        ReplayAppend(lib, cur, ops, [op]);
        ReplayOne(lib, next, op);
        next, ops := lib(next, op), ops + [op];
        op := AdjustHue(hue);
        ReplayAppend(lib, cur, ops, [op]);
        ReplayOne(lib, next, op);
        next, ops := lib(next, op), ops + [op];
      }
    }
  }

  /** Device pixel ratio: rescales the current image unless the ratio is exactly 1. */
  method DprStage(lib: Library, p: QueryParams, cur: Image) returns (next: Image, ops: seq<Op>)
    ensures ops == DprCalls(p.DPR, cur)
    ensures next == Replay(lib, cur, ops)
  {
    next, ops := cur, [];
    if p.DPR != Finite(1.0) {
      var op := ScaleByRatio(cur.width, cur.height, p.DPR);
      ReplayOne(lib, cur, op);
      next, ops := lib(cur, op), [op];
    }
  }

  /** Contain background colour: resize to the target box and paste it onto a canvas; a bad colour fails. */
  method ContainStage(lib: Library, names: NameTable, p: QueryParams, cur: Image) returns (next: Result<Image, NumError>, ops: seq<Op>)
    ensures ContainCalls(names, p.ContainBgColor, p.Width, p.Height).Err? ==>
              next == Err(ContainCalls(names, p.ContainBgColor, p.Width, p.Height).error) && ops == []
    ensures ContainCalls(names, p.ContainBgColor, p.Width, p.Height).Ok? ==>
              ops == ContainCalls(names, p.ContainBgColor, p.Width, p.Height).value && next == Ok(Replay(lib, cur, ops))
  {
    next, ops := Ok(cur), [];
    if p.ContainBgColor != "" {
      var parsed := ParseColor(names, p.ContainBgColor);
      if parsed.Err? {
        return Err(parsed.error), [];
      }
      var resize := Resize(p.Width, p.Height);
      var paste := PasteOnCanvas(p.Width, p.Height, parsed.value);
      var resized := lib(cur, resize);
      var pasted := lib(resized, paste);
      ReplayOne(lib, cur, resize);
      ReplayAppend(lib, cur, [resize], [paste]);
      ReplayOne(lib, resized, paste);
      assert [resize] + [paste] == [resize, paste];
      next, ops := Ok(pasted), [resize, paste];
    }
  }

  /** Without enlargement: resizes back to the current dimensions when a target exceeds them. */
  method GuardStage(lib: Library, p: QueryParams, cur: Image) returns (next: Image, ops: seq<Op>)
    ensures ops == GuardCalls(p, cur)
    ensures next == Replay(lib, cur, ops)
  {
    next, ops := cur, [];
    if p.WithoutEnlarge {
      var originalWidth, originalHeight := cur.width, cur.height;
      if p.Width > originalWidth || p.Height > originalHeight {
        var op := Resize(originalWidth, originalHeight);
        ReplayOne(lib, cur, op);
        next, ops := lib(cur, op), [op];
      }
    }
  }

  /** Tint: a half-opacity layer of the tint colour; a bad colour fails. */
  method TintStage(lib: Library, names: NameTable, p: QueryParams, cur: Image) returns (next: Result<Image, NumError>, ops: seq<Op>)
    ensures TintCalls(names, p.Tint).Err? ==> next == Err(TintCalls(names, p.Tint).error) && ops == []
    ensures TintCalls(names, p.Tint).Ok? ==> ops == TintCalls(names, p.Tint).value && next == Ok(Replay(lib, cur, ops))
  {
    next, ops := Ok(cur), [];
    if p.Tint != "" {
      var parsed := ParseColor(names, p.Tint);
      if parsed.Err? {
        return Err(parsed.error), [];
      }
      var op := TintOverlay(parsed.value);
      ReplayOne(lib, cur, op);
      next, ops := Ok(lib(cur, op)), [op];
    }
  }

  // ---------------------------------------------------------------- the pipeline

  /**
   * The stages of `ProcessImageWithParams` that cannot fail, resize to device pixel ratio, in
   * their fixed order; each receives the image the previous one produced.
   */
  method AdjustStages(lib: Library, names: NameTable, read: FloatReader, img: Image, p: QueryParams)
    returns (cur: Image, trace: Trace)
    ensures trace.resize == ResizeCalls(p, img)
    ensures trace.fit == (if p.Fit == "" then [] else FitCalls(p.Fit, p.Width, p.Height))
    ensures trace.background == BackgroundCalls(names, p.Background, Replay(lib, img, trace.BeforeBackground()))
    ensures trace.blur == (if p.Blur.Positive() then [Blur(p.Blur)] else [])
    ensures trace.gamma == (if p.Gamma.Positive() then [AdjustGamma(p.Gamma)] else [])
    ensures trace.modulate == ModulateCalls(read, p.Modulate)
    ensures trace.sharpen == (if p.Sharpen.Positive() then [Sharpen(p.Sharpen)] else [])
    ensures trace.dpr == DprCalls(p.DPR, Replay(lib, img, trace.BeforeDpr()))
    ensures trace.contain == [] && trace.guard == [] && trace.tint == []
    ensures cur == Replay(lib, img, trace.BeforeDpr() + trace.dpr)
  {
    cur := img;
    var resize, fit, background, blur, gamma, modulate, sharpen, dpr: seq<Op>;
    ghost var done: seq<Op> := [];

    cur, resize := ResizeStage(lib, p, cur);
    ReplayAppend(lib, img, done, resize);
    done := done + resize;
    cur, fit := FitStage(lib, p, cur);
    ReplayAppend(lib, img, done, fit);
    done := done + fit;
    assert done == resize + fit;
    cur, background := BackgroundStage(lib, names, p, cur);
    ReplayAppend(lib, img, done, background);
    done := done + background;
    cur, blur := FilterStage(lib, p.Blur.Positive(), Blur(p.Blur), cur);
    ReplayAppend(lib, img, done, blur);
    done := done + blur;
    cur, gamma := FilterStage(lib, p.Gamma.Positive(), AdjustGamma(p.Gamma), cur);
    ReplayAppend(lib, img, done, gamma);
    done := done + gamma;
    cur, modulate := ModulateStage(lib, read, p, cur);
    ReplayAppend(lib, img, done, modulate);
    done := done + modulate;
    cur, sharpen := FilterStage(lib, p.Sharpen.Positive(), Sharpen(p.Sharpen), cur);
    ReplayAppend(lib, img, done, sharpen);
    done := done + sharpen;
    cur, dpr := DprStage(lib, p, cur);
    ReplayAppend(lib, img, done, dpr);
    trace := Trace(resize, fit, background, blur, gamma, modulate, sharpen, dpr, [], [], []);
  }

  /**
   * `ProcessImageWithParams`: threads one image through the stages in their fixed order and
   * records the calls each stage makes. `read` stands for `strconv.ParseFloat` on the modulate
   * parts. The interlace and page-selection branches of the source are empty and issue no call.
   */
  method ProcessImageWithParams(lib: Library, names: NameTable, read: FloatReader, img: Image, p: QueryParams)
    returns (res: Result<Image, PipelineError>, trace: Trace)
    ensures trace.resize == ResizeCalls(p, img)
    ensures trace.fit == (if p.Fit == "" then [] else FitCalls(p.Fit, p.Width, p.Height))
    ensures trace.background == BackgroundCalls(names, p.Background, Replay(lib, img, trace.BeforeBackground()))
    ensures trace.blur == (if p.Blur.Positive() then [Blur(p.Blur)] else [])
    ensures trace.gamma == (if p.Gamma.Positive() then [AdjustGamma(p.Gamma)] else [])
    ensures trace.modulate == ModulateCalls(read, p.Modulate)
    ensures trace.sharpen == (if p.Sharpen.Positive() then [Sharpen(p.Sharpen)] else [])
    ensures trace.dpr == DprCalls(p.DPR, Replay(lib, img, trace.BeforeDpr()))
    ensures res.Err? <==> ColorFails(names, p.ContainBgColor) || ColorFails(names, p.Tint)
    ensures ContainCalls(names, p.ContainBgColor, p.Width, p.Height).Err? ==>
              && res == Err(ContainBgColorInvalid(ContainCalls(names, p.ContainBgColor, p.Width, p.Height).error))
              && trace.contain == [] && trace.guard == [] && trace.tint == []
    ensures ContainCalls(names, p.ContainBgColor, p.Width, p.Height).Ok? ==>
              && trace.contain == ContainCalls(names, p.ContainBgColor, p.Width, p.Height).value
              && trace.guard == GuardCalls(p, Replay(lib, img, trace.BeforeGuard()))
    ensures ContainCalls(names, p.ContainBgColor, p.Width, p.Height).Ok? && TintCalls(names, p.Tint).Err? ==>
              res == Err(TintColorInvalid(TintCalls(names, p.Tint).error)) && trace.tint == []
    ensures ContainCalls(names, p.ContainBgColor, p.Width, p.Height).Ok? && TintCalls(names, p.Tint).Ok? ==>
              trace.tint == TintCalls(names, p.Tint).value && res == Ok(Replay(lib, img, trace.Calls()))
  {
    var cur;
    cur, trace := AdjustStages(lib, names, read, img, p);
    ghost var done := trace.BeforeDpr() + trace.dpr;
    // The interlace and page-selection branches make no call.

    var contained, contain := ContainStage(lib, names, p, cur);
    if contained.Err? {
      return Err(ContainBgColorInvalid(contained.error)), trace;
    }
    ReplayAppend(lib, img, done, contain);
    trace := trace.(contain := contain);
    assert trace.BeforeGuard() == done + contain;
    cur := contained.value;

    var guard;
    cur, guard := GuardStage(lib, p, cur);
    ReplayAppend(lib, img, trace.BeforeGuard(), guard);
    trace := trace.(guard := guard);

    var tinted, tint := TintStage(lib, names, p, cur);
    if tinted.Err? {
      return Err(TintColorInvalid(tinted.error)), trace;
    }
    ReplayAppend(lib, img, trace.BeforeGuard() + guard, tint);
    trace := trace.(tint := tint);
    res := Ok(tinted.value);
  }

  // ---------------------------------------------------------------- properties of the stages

  /** An image with no pixels: zero width or zero height. */
  predicate Empty(i: Image)
  {
    i.width == 0 || i.height == 0
  }

  /**
   * The sizes `imaging.Resize` gives: a negative target, a 0x0 target or an empty source give
   * the 0x0 image; a positive target on a non-empty source gives exactly that target. A target
   * with one zero side keeps the aspect ratio, which is left abstract.
   */
  ghost predicate ResizesLikeImaging(lib: Library)
  {
    forall i: Image, w: int, h: int ::
      && (w > 0 && h > 0 && !Empty(i) ==>
            lib(i, Resize(w, h)).width == w && lib(i, Resize(w, h)).height == h)
      && (w < 0 || h < 0 || (w == 0 && h == 0) || Empty(i) ==>
            lib(i, Resize(w, h)).width == 0 && lib(i, Resize(w, h)).height == 0)
  }

  /**
   * The sizes `PasteCenter(New(w, h, c), img)` gives: the canvas size, which `imaging.New`
   * makes 0x0 when a side is not positive.
   */
  ghost predicate CanvasLikeImaging(lib: Library)
  {
    forall i: Image, w: int, h: int, c: RGBA ::
      && (w > 0 && h > 0 ==>
            lib(i, PasteOnCanvas(w, h, c)).width == w && lib(i, PasteOnCanvas(w, h, c)).height == h)
      && (w <= 0 || h <= 0 ==>
            lib(i, PasteOnCanvas(w, h, c)).width == 0 && lib(i, PasteOnCanvas(w, h, c)).height == 0)
  }

  /** With more than three parts, or fewer, modulate does nothing; `",,"` gives the fallbacks 1, 1 and 0. */
  lemma ModulateFallbacks(read: FloatReader)
    requires RejectsEmpty(read)
    ensures ModulateCalls(read, ",,") ==
              [AdjustBrightness(Finite(1.0)), AdjustSaturation(Finite(1.0)), AdjustHue(Finite(0.0))]
    ensures ModulateCalls(read, "1,1") == []
    ensures ModulateCalls(read, "1,1,0,0") == []
  {
    assert Split("", ',') == [""];
    assert Split(",", ',') == [""] + Split("", ',');
    assert Split(",,", ',') == [""] + Split(",", ',');
    assert Count("1,1", ',') == 1;
    assert Count("1,1,0,0", ',') == 3;
  }

  /**
   * Modulate on `a,b,c`: brightness, saturation and hue are the parsed parts in that order,
   * with fallbacks 1, 1 and 0 for a part the reader rejects.
   */
  lemma ModulateArguments(read: FloatReader, a: string, b: string, c: string)
    requires ',' !in a && ',' !in b && ',' !in c
    ensures ModulateCalls(read, a + "," + b + "," + c) ==
              [ AdjustBrightness(if read(a).Some? then read(a).value else Finite(1.0)),
                AdjustSaturation(if read(b).Some? then read(b).value else Finite(1.0)),
                AdjustHue(if read(c).Some? then read(c).value else Finite(0.0)) ]
  {
    var spec := a + "," + b + "," + c;
    assert spec == a + [','] + (b + [','] + c);
    SplitNoSeparator(c, ',');
    SplitAtSeparator(b, ',', c);
    SplitAtSeparator(a, ',', b + [','] + c);
    assert Split(spec, ',') == [a, b, c];
  }

  /** Every spec with exactly two commas has the form `a,b,c` of `ModulateArguments`. */
  lemma ModulateSpecShape(spec: string)
    requires Count(spec, ',') == 2
    ensures var parts := Split(spec, ',');
            |parts| == 3 && spec == parts[0] + "," + parts[1] + "," + parts[2]
            && ',' !in parts[0] && ',' !in parts[1] && ',' !in parts[2]
  {
    SplitCount(spec, ',');
    JoinSplit(spec, ',');
    var parts := Split(spec, ',');
    assert parts[1..][1..] == [parts[2]];
    assert Join(parts[1..][1..], ',') == parts[2];
    assert Join(parts[1..], ',') == parts[1] + [','] + parts[2];
    assert Join(parts, ',') == parts[0] + [','] + (parts[1] + [','] + parts[2]);
  }

  /**
   * The enlargement guard never changes the dimensions of a non-empty image: it fires only to
   * resize the image to the size it already has. An empty image stays empty.
   */
  lemma GuardKeepsSize(lib: Library, p: QueryParams, at: Image)
    requires ResizesLikeImaging(lib)
    ensures var out := Replay(lib, at, GuardCalls(p, at));
            !Empty(at) ==> out.width == at.width && out.height == at.height
    ensures var out := Replay(lib, at, GuardCalls(p, at));
            Empty(at) ==> out == at || (out.width == 0 && out.height == 0)
  {
    if GuardCalls(p, at) != [] {
      ReplayOne(lib, at, Resize(at.width, at.height));
    }
  }

  /**
   * A successful contain stage with a colour yields exactly the target box when both sides are
   * positive, and the 0x0 image otherwise; without a colour it leaves the image alone.
   */
  lemma ContainGivesTargetBox(lib: Library, names: NameTable, p: QueryParams, at: Image)
    requires CanvasLikeImaging(lib)
    requires ContainCalls(names, p.ContainBgColor, p.Width, p.Height).Ok?
    ensures var out := Replay(lib, at, ContainCalls(names, p.ContainBgColor, p.Width, p.Height).value);
            p.ContainBgColor != "" && p.Width > 0 && p.Height > 0 ==> out.width == p.Width && out.height == p.Height
    ensures var out := Replay(lib, at, ContainCalls(names, p.ContainBgColor, p.Width, p.Height).value);
            p.ContainBgColor != "" && (p.Width <= 0 || p.Height <= 0) ==> out.width == 0 && out.height == 0
    ensures p.ContainBgColor == "" ==> Replay(lib, at, ContainCalls(names, p.ContainBgColor, p.Width, p.Height).value) == at
  {
    var ops := ContainCalls(names, p.ContainBgColor, p.Width, p.Height).value;
    if p.ContainBgColor != "" {
      ReplayAppend(lib, at, [ops[0]], [ops[1]]);
      assert [ops[0]] + [ops[1]] == ops;
      ReplayOne(lib, at, ops[0]);
      ReplayOne(lib, lib(at, ops[0]), ops[1]);
    }
  }

  /**
   * A 100x100 image requested at 200x200 without enlargement comes back 200x200: the resize
   * stage enlarges it first, and the guard only sees the enlarged image.
   */
  method EnlargedDespiteGuard(lib: Library, names: NameTable, read: FloatReader, img: Image)
    returns (res: Result<Image, PipelineError>)
    requires ResizesLikeImaging(lib)
    requires img.width == 100 && img.height == 100
    ensures res.Ok? && res.value.width == 200 && res.value.height == 200
  {
    var p := Defaults.(Width := 200, Height := 200, WithoutEnlarge := true);
    var trace;
    res, trace := ProcessImageWithParams(lib, names, read, img, p);
    var resized := Replay(lib, img, trace.resize);
    ReplayOne(lib, img, Resize(200, 200));
    assert !Empty(img);
    assert lib(img, Resize(200, 200)).width == 200 && lib(img, Resize(200, 200)).height == 200;
    assert trace.BeforeGuard() == trace.resize + [] + [] + [] + [] + [] + [] + [] + [];
    assert trace.Calls() == trace.resize;
  }

  // ---------------------------------------------------------------- overlay and metadata

  /**
   * The offset `OverlayImage` gives the overlay: each half-size is rounded down separately
   * (`Dx/2` on non-negative ints).
   */
  function OverlayOffset(base: Image, overlay: Image): (off: (int, int))
    ensures base.width == overlay.width && base.height == overlay.height ==> off == (0, 0)
    ensures base.width - overlay.width - 1 <= 2 * off.0 <= base.width - overlay.width + 1
    ensures base.height - overlay.height - 1 <= 2 * off.1 <= base.height - overlay.height + 1
    ensures overlay.width <= base.width ==> 0 <= off.0 && off.0 + overlay.width <= base.width
    ensures overlay.height <= base.height ==> 0 <= off.1 && off.1 + overlay.height <= base.height
  {
    (base.width / 2 - overlay.width / 2, base.height / 2 - overlay.height / 2)
  }

  /**
   * `OverlayImage`: one full-opacity overlay call on the base image, centred to within one
   * pixel on each axis. Equal sizes draw at the origin, and an overlay no larger than the base
   * is drawn entirely inside it.
   */
  function OverlayImage(lib: Library, base: Image, overlay: Image): (r: Image)
    ensures base.width == overlay.width && base.height == overlay.height ==>
              r == lib(base, OverlayAt(overlay, 0, 0, 1.0))
    ensures exists x: int, y: int ::
              && base.width - overlay.width - 1 <= 2 * x <= base.width - overlay.width + 1
              && base.height - overlay.height - 1 <= 2 * y <= base.height - overlay.height + 1
              && (overlay.width <= base.width ==> 0 <= x && x + overlay.width <= base.width)
              && (overlay.height <= base.height ==> 0 <= y && y + overlay.height <= base.height)
              && r == lib(base, OverlayAt(overlay, x, y, 1.0))
  {
    var (x, y) := OverlayOffset(base, overlay);
    lib(base, OverlayAt(overlay, x, y, 1.0))
  }

  /** The `width`, `height` and `format` entries `GetImageMetadata` reports. */
  datatype Metadata = Metadata(width: nat, height: nat, format: string)

  function GetImageMetadata(img: Image): (m: Metadata)
    ensures m.width == img.width && m.height == img.height
    ensures m.format in {"png", "jpeg", "unknown"}
    ensures m.format == GetImageFormat(img)
  {
    Metadata(img.width, img.height, GetImageFormat(img))
  }
}

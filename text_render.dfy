/**
 * `RenderTextToImage` of internal/service/image.go: option defaulting, the baseline and
 * alignment switches, and the sequence of drawing-context calls that paints one line of text.
 *
 * The gg drawing context is the class `Canvas`; fonts are abstract, with the set of font
 * files that load given as a parameter.
 */
module TextRender {
  import opened Wrappers
  import opened Strconv
  import opened Color
  import opened Params
  import Strings

  // ---------------------------------------------------------------- options

  /** The options the renderer reads, after defaulting. */
  datatype TextOptions = TextOptions(
    width: int, height: int, background: string, textColor: string, fontSize: int,
    fontFamily: string, textAlign: string, roundedCorners: bool, cornerRadius: int,
    textBaseline: string)

  /** The renderer's options as they arrive in the query parameters. */
  function OptionsOf(p: QueryParams): TextOptions
  {
    TextOptions(p.Width, p.Height, p.Background, p.TextColor, p.FontSize, p.FontFamily,
                p.TextAlign, p.RoundedCorners, p.CornerRadius, p.TextBaseline)
  }

  /** No option is left zero or empty. */
  predicate Resolved(o: TextOptions)
  {
    o.width != 0 && o.height != 0 && o.background != "" && o.textColor != "" && o.fontSize != 0
    && o.fontFamily != "" && o.textAlign != "" && o.cornerRadius != 0 && o.textBaseline != ""
  }

  /** A numeric option: its default when zero. */
  function OrDefault(v: int, default: int): (r: int)
    requires default != 0
    ensures r != 0
    ensures v != 0 ==> r == v
    ensures v == 0 ==> r == default
  {
    if v == 0 then default else v
  }

  /** A string option: its default when empty. */
  function OrDefaultString(s: string, default: string): (r: string)
    requires default != ""
    ensures r != ""
    ensures s != "" ==> r == s
    ensures s == "" ==> r == default
  {
    if s == "" then default else s
  }

  /** Replaces exactly the zero or empty options by the renderer's defaults. */
  function ResolveTextOptions(o: TextOptions): (r: TextOptions)
    ensures Resolved(r)
    ensures o.width != 0 ==> r.width == o.width
    ensures o.height != 0 ==> r.height == o.height
    ensures o.background != "" ==> r.background == o.background
    ensures o.textColor != "" ==> r.textColor == o.textColor
    ensures o.fontSize != 0 ==> r.fontSize == o.fontSize
    ensures o.fontFamily != "" ==> r.fontFamily == o.fontFamily
    ensures o.textAlign != "" ==> r.textAlign == o.textAlign
    ensures r.roundedCorners == o.roundedCorners
    ensures o.cornerRadius != 0 ==> r.cornerRadius == o.cornerRadius
    ensures o.textBaseline != "" ==> r.textBaseline == o.textBaseline
    ensures o.width == 0 ==> r.width == 800
    ensures o.height == 0 ==> r.height == 800
    ensures o.background == "" ==> r.background == "white"
    ensures o.textColor == "" ==> r.textColor == "black"
    ensures o.fontSize == 0 ==> r.fontSize == 48
    ensures o.fontFamily == "" ==> r.fontFamily == "Arial"
    ensures o.textAlign == "" ==> r.textAlign == "center"
    ensures o.cornerRadius == 0 ==> r.cornerRadius == 20
    ensures o.textBaseline == "" ==> r.textBaseline == "middle"
  {
    TextOptions(
      OrDefault(o.width, 800),
      OrDefault(o.height, 800),
      OrDefaultString(o.background, "white"),
      OrDefaultString(o.textColor, "black"),
      OrDefault(o.fontSize, 48),
      OrDefaultString(o.fontFamily, "Arial"),
      OrDefaultString(o.textAlign, "center"),
      o.roundedCorners,
      OrDefault(o.cornerRadius, 20),
      OrDefaultString(o.textBaseline, "middle"))
  }

  /** Defaulting leaves resolved options alone, so resolving twice is resolving once. */
  lemma ResolveIdempotent(o: TextOptions)
    ensures Resolved(o) ==> ResolveTextOptions(o) == o
    ensures ResolveTextOptions(ResolveTextOptions(o)) == ResolveTextOptions(o)
  {
    var r := ResolveTextOptions(o);
    assert Resolved(r);
  }

  /** With no option given, every default applies. */
  lemma EmptyOptionsDefaults()
    ensures ResolveTextOptions(OptionsOf(Defaults)) ==
              TextOptions(800, 800, "white", "black", 48, "Arial", "center", false, 20, "middle")
  {
  }

  // ---------------------------------------------------------------- baseline and alignment

  /** The branches of the baseline switch; the vertical position each computes is left abstract. */
  datatype Baseline = Top | Hanging | Middle | Alphabetic | Ideographic | Bottom

  /** The baseline switch: an unknown value takes the default branch, which is the middle one. */
  function BaselineBranch(b: string): (r: Baseline)
    ensures r == Middle <==> b !in {"top", "hanging", "alphabetic", "ideographic", "bottom"}
    ensures b == "top" <==> r == Top
    ensures b == "hanging" <==> r == Hanging
    ensures b == "alphabetic" <==> r == Alphabetic
    ensures b == "ideographic" <==> r == Ideographic
    ensures b == "bottom" <==> r == Bottom
  {
    if b == "top" then Top
    else if b == "hanging" then Hanging
    else if b == "middle" then Middle
    else if b == "alphabetic" then Alphabetic
    else if b == "ideographic" then Ideographic
    else if b == "bottom" then Bottom
    else Middle
  }

  /** Where the text is anchored horizontally: the x coordinate and the horizontal anchor fraction. */
  datatype Anchor = Anchor(x: real, ax: real)

  /** The alignment switch: `None` for a value it does not list, which draws nothing. */
  function AnchorFor(align: string, width: int): (r: Option<Anchor>)
    ensures r.Some? <==> align in {"left", "center", "right"}
    ensures r.Some? ==> r.value.x == r.value.ax * (width as real)
    ensures align == "left" ==> r == Some(Anchor(0.0, 0.0))
    ensures align == "center" ==> r.Some? && r.value.ax == 0.5
    ensures align == "right" ==> r.Some? && r.value.ax == 1.0
  {
    if align == "left" then Some(Anchor(0.0, 0.0))
    else if align == "center" then Some(Anchor((width as real) / 2.0, 0.5))
    else if align == "right" then Some(Anchor(width as real, 1.0))
    else None
  }

  // ---------------------------------------------------------------- fonts and the drawing context

  /** A font face: a loaded font file, or the bundled Go Regular font. */
  datatype Face = LoadedFace(family: string, size: int) | GoRegular(size: int)

  /** The face used: the named font file when it loads (`fonts` holds those that do), else Go Regular. */
  function FaceFor(fonts: set<string>, family: string, size: int): (f: Face)
    ensures f.size == size
    ensures f.LoadedFace? <==> family in fonts
    ensures f.LoadedFace? ==> f.family == family
  {
    if family in fonts then LoadedFace(family, size) else GoRegular(size)
  }

  /** One anchored string drawn on the canvas, with the colour and face in force when it was drawn. */
  datatype Drawn = Drawn(text: string, anchor: Anchor, baseline: Baseline, ay: real,
                         color: Option<RGBA>, face: Option<Face>)

  /** What `dc.Image()` returns: the canvas size, the colour it was cleared to, and the strings drawn. */
  datatype Rendered = Rendered(width: int, height: int, fill: Option<RGBA>, texts: seq<Drawn>)

  /** `|n|`, the extent of the span between 0 and `n`. */
  function Abs(n: int): (a: nat)
    ensures a == n || a == -n
  {
    if n < 0 then -n else n
  }

  /** The gg drawing context. */
  class Canvas {
    const width: int
    const height: int
    var color: Option<RGBA>
    var fill: Option<RGBA>
    var face: Option<Face>
    var texts: seq<Drawn>

    /**
     * `gg.NewContext(width, height)`: nothing drawn, no colour or face chosen. The canvas is
     * `image.Rect(0, 0, width, height)`, which swaps reversed corners, so a negative size gives
     * a canvas of the absolute size.
     */
    constructor(width: int, height: int)
      ensures this.width == Abs(width) && this.height == Abs(height)
      ensures this.width >= 0 && this.height >= 0
      ensures color == None && fill == None && face == None && texts == []
    {
      this.width, this.height := Abs(width), Abs(height);
      color, fill, face, texts := None, None, None, [];
    }

    method SetColor(c: RGBA)
      modifies this
      ensures color == Some(c)
      ensures fill == old(fill) && face == old(face) && texts == old(texts)
    {
      color := Some(c);
    }

    /** Fills the whole canvas with the current colour; earlier drawing is covered. */
    method Clear()
      modifies this
      ensures fill == color && texts == []
      ensures color == old(color) && face == old(face)
    {
      fill, texts := color, [];
    }

    method SetFontFace(f: Face)
      modifies this
      ensures face == Some(f)
      ensures color == old(color) && fill == old(fill) && texts == old(texts)
    {
      face := Some(f);
    }

    method DrawStringAnchored(text: string, anchor: Anchor, baseline: Baseline, ay: real)
      modifies this
      ensures texts == old(texts) + [Drawn(text, anchor, baseline, ay, color, face)]
      ensures color == old(color) && fill == old(fill) && face == old(face)
    {
      texts := texts + [Drawn(text, anchor, baseline, ay, color, face)];
    }

    function Image(): (r: Rendered)
      reads this
      ensures r.width == width && r.height == height && r.fill == fill && r.texts == texts
    {
      Rendered(width, height, fill, texts)
    }
  }

  // ---------------------------------------------------------------- rendering

  /** The two error returns of `RenderTextToImage`, each wrapping the colour-parse error. */
  datatype RenderError = BackgroundColorInvalid(cause: NumError) | TextColorInvalid(cause: NumError)

  /** What rendering `text` with query parameters `p` produces. */
  function RenderPlan(names: NameTable, fonts: set<string>, text: string, p: QueryParams)
    : (r: Result<Rendered, RenderError>)
    ensures r.Ok? ==> r.value.fill.Some? && |r.value.texts| <= 1
    ensures var o := ResolveTextOptions(OptionsOf(p));
            r.Ok? ==> ParseColor(names, o.textColor).Ok?
    ensures var o := ResolveTextOptions(OptionsOf(p));
            ParseColor(names, o.background).Err? ==> r == Err(BackgroundColorInvalid(ParseColor(names, o.background).error))
    ensures var o := ResolveTextOptions(OptionsOf(p));
            ParseColor(names, o.background).Ok? && ParseColor(names, o.textColor).Err? ==>
              r == Err(TextColorInvalid(ParseColor(names, o.textColor).error))
    ensures var o := ResolveTextOptions(OptionsOf(p));
            r.Ok? && ParseColor(names, o.textColor).Ok? ==>
              forall d :: d in r.value.texts ==>
                && d.text == text
                && d.color == Some(ParseColor(names, o.textColor).value)
                && d.face == Some(FaceFor(fonts, o.fontFamily, o.fontSize))
    ensures var o := ResolveTextOptions(OptionsOf(p));
            r.Ok? ==> forall d :: d in r.value.texts ==>
              && AnchorFor(o.textAlign, o.width).Some? && d.anchor == AnchorFor(o.textAlign, o.width).value
              && d.baseline == BaselineBranch(o.textBaseline) && d.ay == 0.5
  {
    var o := ResolveTextOptions(OptionsOf(p));
    match ParseColor(names, o.background)
    case Err(e) => Err(BackgroundColorInvalid(e))
    case Ok(bg) =>
      match ParseColor(names, o.textColor)
      case Err(e) => Err(TextColorInvalid(e))
      case Ok(fg) =>
        Ok(Rendered(Abs(o.width), Abs(o.height), Some(bg), TextsDrawn(fonts, text, o, fg)))
  }

  /** The strings drawn once the canvas is cleared: the text once, or nothing for an unknown alignment. */
  function TextsDrawn(fonts: set<string>, text: string, o: TextOptions, fg: RGBA): (ds: seq<Drawn>)
    ensures |ds| <= 1
    ensures ds != [] <==> AnchorFor(o.textAlign, o.width).Some?
    ensures forall d :: d in ds ==>
              d.text == text && d.color == Some(fg) && d.face == Some(FaceFor(fonts, o.fontFamily, o.fontSize))
    ensures forall d :: d in ds ==>
              && AnchorFor(o.textAlign, o.width).Some? && d.anchor == AnchorFor(o.textAlign, o.width).value
              && d.baseline == BaselineBranch(o.textBaseline) && d.ay == 0.5
  {
    match AnchorFor(o.textAlign, o.width)
    case None => []
    case Some(anchor) =>
      [Drawn(text, anchor, BaselineBranch(o.textBaseline), 0.5, Some(fg), Some(FaceFor(fonts, o.fontFamily, o.fontSize)))]
  }

  /** Selects the face, then draws the text at the anchor the alignment gives, if any. */
  method DrawText(dc: Canvas, fonts: set<string>, text: string, o: TextOptions, fg: RGBA)
    requires dc.color == Some(fg)
    modifies dc
    ensures dc.texts == old(dc.texts) + TextsDrawn(fonts, text, o, fg)
    ensures dc.face == Some(FaceFor(fonts, o.fontFamily, o.fontSize))
    ensures dc.color == old(dc.color) && dc.fill == old(dc.fill)
  {
    // The family is never empty once defaulted; a font file that does not load gives Go Regular.
    var face: Option<Face> := None;
    if o.fontFamily in fonts {
      face := Some(LoadedFace(o.fontFamily, o.fontSize));
    }
    if face.None? {
      face := Some(GoRegular(o.fontSize));
    }
    dc.SetFontFace(face.value);

    var baseline := BaselineBranch(o.textBaseline);
    if o.textAlign == "left" {
      dc.DrawStringAnchored(text, Anchor(0.0, 0.0), baseline, 0.5);
    } else if o.textAlign == "center" {
      dc.DrawStringAnchored(text, Anchor((o.width as real) / 2.0, 0.5), baseline, 0.5);
    } else if o.textAlign == "right" {
      dc.DrawStringAnchored(text, Anchor(o.width as real, 1.0), baseline, 0.5);
    }
  }

  /**
   * `RenderTextToImage`: defaults the options, clears a canvas to the background colour and
   * draws the text in the text colour. The rounded-corner clip is not part of this model.
   */
  method RenderTextToImage(names: NameTable, fonts: set<string>, text: string, p: QueryParams)
    returns (r: Result<Rendered, RenderError>)
    ensures r == RenderPlan(names, fonts, text, p)
  {
    var o := ResolveTextOptions(OptionsOf(p));
    var dc := new Canvas(o.width, o.height);

    var bgColor := ParseColor(names, o.background);
    if bgColor.Err? {
      return Err(BackgroundColorInvalid(bgColor.error));
    }
    dc.SetColor(bgColor.value);
    dc.Clear();

    var txtColor := ParseColor(names, o.textColor);
    if txtColor.Err? {
      return Err(TextColorInvalid(txtColor.error));
    }
    dc.SetColor(txtColor.value);

    DrawText(dc, fonts, text, o, txtColor.value);
    assert dc.texts == TextsDrawn(fonts, text, o, txtColor.value);
    r := Ok(dc.Image());
    assert r == Ok(Rendered(Abs(o.width), Abs(o.height), Some(bgColor.value), TextsDrawn(fonts, text, o, txtColor.value)));
  }

  // ---------------------------------------------------------------- properties

  /** Rendering fails exactly when the (defaulted) background or text colour fails to parse, background first. */
  lemma RenderErrors(names: NameTable, fonts: set<string>, text: string, p: QueryParams)
    ensures var o := ResolveTextOptions(OptionsOf(p));
            var r := RenderPlan(names, fonts, text, p);
            && (r.Err? <==> ParseColor(names, o.background).Err? || ParseColor(names, o.textColor).Err?)
            && (ParseColor(names, o.background).Err? ==> r == Err(BackgroundColorInvalid(ParseColor(names, o.background).error)))
            && (ParseColor(names, o.background).Ok? && ParseColor(names, o.textColor).Err? ==>
                  r == Err(TextColorInvalid(ParseColor(names, o.textColor).error)))
  {
  }

  /**
   * A successful render has the defaulted size, taken as a span so that a negative size gives
   * the absolute one, and is cleared to the background colour.
   */
  lemma RenderSizeAndFill(names: NameTable, fonts: set<string>, text: string, p: QueryParams)
    requires RenderPlan(names, fonts, text, p).Ok?
    ensures var o := ResolveTextOptions(OptionsOf(p));
            var r := RenderPlan(names, fonts, text, p).value;
            && r.width == Abs(o.width) && r.height == Abs(o.height)
            && r.width > 0 && r.height > 0
            && (o.width > 0 ==> r.width == o.width) && (o.height > 0 ==> r.height == o.height)
            && r.fill == Some(ParseColor(names, o.background).value)
            && |r.texts| <= 1
            && (r.texts == [] <==> o.textAlign !in {"left", "center", "right"})
  {
  }

  /** `w=-5` gives a canvas 5 wide, while the centred text is anchored at x = -2.5 as computed. */
  lemma NegativeWidthMirrored(names: NameTable, fonts: set<string>, text: string, p: QueryParams)
    requires p.Width == -5 && p.TextAlign == "center"
    requires RenderPlan(names, fonts, text, p).Ok?
    ensures RenderPlan(names, fonts, text, p).value.width == 5
    ensures |RenderPlan(names, fonts, text, p).value.texts| == 1
    ensures RenderPlan(names, fonts, text, p).value.texts[0].anchor == Anchor(-2.5, 0.5)
  {
    var o := ResolveTextOptions(OptionsOf(p));
    assert o.width == -5 && o.textAlign == "center";
    assert AnchorFor(o.textAlign, o.width) == Some(Anchor(-2.5, 0.5));
  }

  /** An alignment the switch does not list draws nothing, whatever the text. */
  lemma UnknownAlignDrawsNothing(names: NameTable, fonts: set<string>, text: string, p: QueryParams)
    requires p.TextAlign == "justify"
    requires RenderPlan(names, fonts, text, p).Ok?
    ensures RenderPlan(names, fonts, text, p).value.texts == []
  {
  }

  /**
   * With no options and a table that knows white and black, the text is drawn centred on an
   * 800x800 white canvas, in black, on the middle baseline, in Go Regular at size 48 unless a
   * font file named "Arial" loads.
   */
  lemma DefaultRender(names: NameTable, fonts: set<string>, text: string)
    requires "white" in names && "black" in names
    requires "Arial" !in fonts
    ensures RenderPlan(names, fonts, text, Defaults) ==
              Ok(Rendered(800, 800, Some(names["white"]),
                          [Drawn(text, Anchor(400.0, 0.5), Middle, 0.5, Some(names["black"]), Some(GoRegular(48)))]))
  {
    assert Strings.ToLower("white") == "white";
    assert Strings.ToLower("black") == "black";
  }
}

/**
 * Query-parameter resolution of internal/util/params.go: every field of `QueryParams` gets a
 * value, integers through `ParseInt` (Atoi with a per-field default), floats through
 * `ParseFloat` (with a default on failure), flags by an exact comparison with `"true"`, and
 * strings verbatim.
 */
module Params {
  import opened Wrappers
  import opened Strconv

  /** A float64: the finite values (as reals), the two infinities and NaN. */
  datatype Float = Finite(value: real) | PosInf | NegInf | NaN
  {
    /** `f > 0` on float64. */
    predicate Positive()
    {
      (Finite? && value > 0.0) || PosInf?
    }
  }

  /**
   * `strconv.ParseFloat(s, 64)` without the error detail. The float syntax is kept abstract:
   * a reader says which strings parse and to what.
   */
  type FloatReader = string -> Option<Float>

  /** Go's float parser rejects the empty string, as every reader standing for it must. */
  predicate RejectsEmpty(read: FloatReader)
  {
    read("") == None
  }

  /** The decoded query string: each key with its values in order (`url.Values`). */
  type Query = map<string, seq<string>>

  /** `url.Values.Get`: the first value of the key, or `""` when the key is absent or has none. */
  function Get(q: Query, key: string): (v: string)
    ensures key in q && |q[key]| > 0 ==> v == q[key][0]
    ensures key !in q || q[key] == [] ==> v == ""
  {
    if key in q && |q[key]| > 0 then q[key][0] else ""
  }

  /** `ParseInt`: the Atoi value, or the default when Atoi fails. */
  function ParseInt(s: string, default: int): (r: int)
    ensures r == default || Atoi(s) == Some(r)
    ensures Atoi(s).Some? ==> r == Atoi(s).value
    ensures Atoi(s) == None ==> r == default
    ensures s == "" ==> r == default
    ensures MinInt64 <= default <= MaxInt64 ==> MinInt64 <= r <= MaxInt64
  {
    match Atoi(s)
    case Some(v) => v
    case None => default
  }

  /** `ParseFloat`: the parsed value, or the default when parsing fails. */
  function ParseFloat(read: FloatReader, s: string, default: Float): (r: Float)
    ensures r == default || read(s) == Some(r)
    ensures read(s).Some? ==> r == read(s).value
    ensures read(s) == None ==> r == default
    ensures RejectsEmpty(read) && s == "" ==> r == default
  {
    match read(s)
    case Some(v) => v
    case None => default
  }

  /** `util.QueryParams`, field for field. */
  datatype QueryParams = QueryParams(
    URL: string,
    Width: int,
    Height: int,
    DPR: Float,
    Fit: string,
    ContainBgColor: string,
    WithoutEnlarge: bool,
    Background: string,
    Blur: Float,
    Gamma: Float,
    Modulate: string,
    Sharpen: Float,
    Tint: string,
    Encoding: string,
    MaxAge: int,
    Compression: int,
    Default: string,
    Filename: string,
    Interlace: bool,
    Pages: int,
    Output: string,
    Page: int,
    Quality: int,
    TextColor: string,
    FontSize: int,
    FontFamily: string,
    Text: string,
    TextAlign: string,
    RoundedCorners: bool,
    CornerRadius: int,
    TextBaseline: string)

  /** `ParseQueryParams`, from the decoded query of the request. */
  function ParseQueryParams(q: Query, read: FloatReader): (r: QueryParams)
    ensures MinInt64 <= r.Width <= MaxInt64 && MinInt64 <= r.Height <= MaxInt64
    ensures MinInt64 <= r.MaxAge <= MaxInt64 && MinInt64 <= r.Compression <= MaxInt64
    ensures MinInt64 <= r.Pages <= MaxInt64 && MinInt64 <= r.Page <= MaxInt64
    ensures MinInt64 <= r.Quality <= MaxInt64 && MinInt64 <= r.FontSize <= MaxInt64
    ensures MinInt64 <= r.CornerRadius <= MaxInt64
    ensures r.DPR == Finite(1.0) || read(Get(q, "dpr")) == Some(r.DPR)
    ensures r.Blur == Finite(0.0) || read(Get(q, "blur")) == Some(r.Blur)
    ensures r.Gamma == Finite(0.0) || read(Get(q, "gam")) == Some(r.Gamma)
    ensures r.Sharpen == Finite(0.0) || read(Get(q, "sharp")) == Some(r.Sharpen)
  {
    QueryParams(
      URL := Get(q, "url"),
      Width := ParseInt(Get(q, "w"), 0),
      Height := ParseInt(Get(q, "h"), 0),
      DPR := ParseFloat(read, Get(q, "dpr"), Finite(1.0)),
      Fit := Get(q, "fit"),
      ContainBgColor := Get(q, "cbg"),
      WithoutEnlarge := Get(q, "we") == "true",
      Background := Get(q, "bg"),
      Blur := ParseFloat(read, Get(q, "blur"), Finite(0.0)),
      Gamma := ParseFloat(read, Get(q, "gam"), Finite(0.0)),
      Modulate := Get(q, "mod"),
      Sharpen := ParseFloat(read, Get(q, "sharp"), Finite(0.0)),
      Tint := Get(q, "tint"),
      Encoding := Get(q, "encoding"),
      MaxAge := ParseInt(Get(q, "maxage"), 31536000),
      Compression := ParseInt(Get(q, "l"), 6),
      Default := Get(q, "default"),
      Filename := Get(q, "filename"),
      Interlace := Get(q, "il") == "true",
      Pages := ParseInt(Get(q, "n"), 0),
      Output := Get(q, "output"),
      Page := ParseInt(Get(q, "page"), 0),
      Quality := ParseInt(Get(q, "q"), 80),
      TextColor := Get(q, "txtColor"),
      FontSize := ParseInt(Get(q, "fontSize"), 48),
      FontFamily := Get(q, "fontFamily"),
      Text := Get(q, "text"),
      TextAlign := Get(q, "textAlign"),
      RoundedCorners := Get(q, "roundedCorners") == "true",
      CornerRadius := ParseInt(Get(q, "cornerRadius"), 20),
      TextBaseline := Get(q, "textBaseline"))
  }

  /** The resolved parameters of a request that sets nothing. */
  const Defaults := QueryParams(
    URL := "", Width := 0, Height := 0, DPR := Finite(1.0), Fit := "", ContainBgColor := "",
    WithoutEnlarge := false, Background := "", Blur := Finite(0.0), Gamma := Finite(0.0),
    Modulate := "", Sharpen := Finite(0.0), Tint := "", Encoding := "", MaxAge := 31536000,
    Compression := 6, Default := "", Filename := "", Interlace := false, Pages := 0, Output := "",
    Page := 0, Quality := 80, TextColor := "", FontSize := 48, FontFamily := "", Text := "",
    TextAlign := "", RoundedCorners := false, CornerRadius := 20, TextBaseline := "")

  // ---------------------------------------------------------------- properties

  /** A valid `int64` decimal is taken as it is, negative values included: nothing is clamped. */
  lemma ParseIntPassesThrough(n: int, default: int)
    requires MinInt64 <= n <= MaxInt64
    ensures ParseInt(FormatInt(n), default) == n
  {
    AtoiFormatInt(n);
  }

  /** The empty string and well-formed decimals outside the `int64` range give the default. */
  lemma ParseIntFallsBack(n: int, default: int)
    requires n < MinInt64 || n > MaxInt64
    ensures ParseInt("", default) == default
    ensures ParseInt(FormatInt(n), default) == default
  {
    AtoiOutOfRange(n);
  }

  /** A string the float parser rejects, the empty one included, gives the default. */
  lemma ParseFloatFallsBack(read: FloatReader, s: string, default: Float)
    requires RejectsEmpty(read) && read(s) == None
    ensures ParseFloat(read, s, default) == default
    ensures ParseFloat(read, "", default) == default
  {
  }

  /** A request without query keys gets the documented default for every field. */
  lemma NoKeysGiveDefaults(read: FloatReader)
    requires RejectsEmpty(read)
    ensures ParseQueryParams(map[], read) == Defaults
  {
  }

  /** Atoi rejects the empty string, so an absent integer key always takes the default. */
  lemma AbsentIntFallsBack(q: Query, key: string, default: int)
    requires key !in q
    ensures ParseInt(Get(q, key), default) == default
  {
  }

  /**
   * Every integer field whose value Atoi rejects, absent (`""`), malformed (`q=abc`) or out of
   * range alike, takes that field's default.
   */
  lemma UnparsableIntTakesDefault(q: Query, read: FloatReader)
    ensures var p := ParseQueryParams(q, read);
      && (Atoi(Get(q, "w")) == None ==> p.Width == 0)
      && (Atoi(Get(q, "h")) == None ==> p.Height == 0)
      && (Atoi(Get(q, "maxage")) == None ==> p.MaxAge == 31536000)
      && (Atoi(Get(q, "l")) == None ==> p.Compression == 6)
      && (Atoi(Get(q, "n")) == None ==> p.Pages == 0)
      && (Atoi(Get(q, "page")) == None ==> p.Page == 0)
      && (Atoi(Get(q, "q")) == None ==> p.Quality == 80)
      && (Atoi(Get(q, "fontSize")) == None ==> p.FontSize == 48)
      && (Atoi(Get(q, "cornerRadius")) == None ==> p.CornerRadius == 20)
  {
  }

  /** Every integer field whose value Atoi accepts takes exactly that value: `w=200` gives width 200. */
  lemma ParsedIntTaken(q: Query, read: FloatReader, v: int)
    ensures var p := ParseQueryParams(q, read);
      && (Atoi(Get(q, "w")) == Some(v) ==> p.Width == v)
      && (Atoi(Get(q, "h")) == Some(v) ==> p.Height == v)
      && (Atoi(Get(q, "maxage")) == Some(v) ==> p.MaxAge == v)
      && (Atoi(Get(q, "l")) == Some(v) ==> p.Compression == v)
      && (Atoi(Get(q, "n")) == Some(v) ==> p.Pages == v)
      && (Atoi(Get(q, "page")) == Some(v) ==> p.Page == v)
      && (Atoi(Get(q, "q")) == Some(v) ==> p.Quality == v)
      && (Atoi(Get(q, "fontSize")) == Some(v) ==> p.FontSize == v)
      && (Atoi(Get(q, "cornerRadius")) == Some(v) ==> p.CornerRadius == v)
  {
  }

  /** Every float field whose value the parser accepts takes exactly that value. */
  lemma ParsedFloatTaken(q: Query, read: FloatReader, v: Float)
    ensures var p := ParseQueryParams(q, read);
      && (read(Get(q, "dpr")) == Some(v) ==> p.DPR == v)
      && (read(Get(q, "blur")) == Some(v) ==> p.Blur == v)
      && (read(Get(q, "gam")) == Some(v) ==> p.Gamma == v)
      && (read(Get(q, "sharp")) == Some(v) ==> p.Sharpen == v)
  {
  }

  /** Every float field whose value the parser rejects, absent or malformed, takes that field's default. */
  lemma UnparsableFloatTakesDefault(q: Query, read: FloatReader)
    ensures var p := ParseQueryParams(q, read);
      && (read(Get(q, "dpr")) == None ==> p.DPR == Finite(1.0))
      && (read(Get(q, "blur")) == None ==> p.Blur == Finite(0.0))
      && (read(Get(q, "gam")) == None ==> p.Gamma == Finite(0.0))
      && (read(Get(q, "sharp")) == None ==> p.Sharpen == Finite(0.0))
  {
  }

  /** A flag is set exactly by the value `"true"`: `"TRUE"`, `"1"` and absence all leave it false. */
  lemma FlagNeedsExactTrue(q: Query, read: FloatReader)
    ensures var p := ParseQueryParams(q, read);
      && (p.WithoutEnlarge <==> Get(q, "we") == "true")
      && (p.Interlace <==> Get(q, "il") == "true")
      && (p.RoundedCorners <==> Get(q, "roundedCorners") == "true")
  {
  }

  /** String fields are the first query value, verbatim, or `""` when the key is absent. */
  lemma StringFieldsVerbatim(q: Query, read: FloatReader)
    ensures var p := ParseQueryParams(q, read);
      && p.URL == Get(q, "url") && p.Fit == Get(q, "fit") && p.ContainBgColor == Get(q, "cbg")
      && p.Background == Get(q, "bg") && p.Modulate == Get(q, "mod") && p.Tint == Get(q, "tint")
      && p.Encoding == Get(q, "encoding") && p.Default == Get(q, "default")
      && p.Filename == Get(q, "filename") && p.Output == Get(q, "output")
      && p.TextColor == Get(q, "txtColor") && p.FontFamily == Get(q, "fontFamily")
      && p.Text == Get(q, "text") && p.TextAlign == Get(q, "textAlign")
      && p.TextBaseline == Get(q, "textBaseline")
  {
  }

  /** `q=abc` is treated like a missing `q`: the quality is the default 80. */
  lemma MalformedQualityDefaults(read: FloatReader)
    ensures ParseQueryParams(map["q" := ["abc"]], read).Quality == 80
  {
    var q: Query := map["q" := ["abc"]];
    assert Get(q, "q") == "abc";
    assert Atoi("abc") == None by {
      assert Unsigned("abc") == "abc";
      assert !IsDecDigit("abc"[0]);
    }
    UnparsableIntTakesDefault(q, read);
  }
}

/**
 * internal/util/image.go: the in-memory image as the core sees it, the mapping from an image's
 * concrete kind to a format name, and the choice of encoder and options for an output format.
 * The encoders themselves, and the writer they fill, belong to foreign packages.
 */
module ImageUtil {
  import opened Strings

  /** The concrete type behind Go's `image.Image` interface. */
  datatype ImageKind = KindRGBA | KindNRGBA | KindGray | KindYCbCr | KindOther

  /**
   * An image: its bounds' width and height (`Dx`, `Dy`), its concrete kind, and an opaque
   * handle standing for the pixel grid, which the model never inspects.
   */
  datatype Image = Image(width: nat, height: nat, kind: ImageKind, pixels: nat)

  /** `GetImageFormat`: RGBA-family images are reported as png, gray and YCbCr as jpeg. */
  function GetImageFormat(img: Image): (f: string)
    ensures f == "png" <==> img.kind == KindRGBA || img.kind == KindNRGBA
    ensures f == "jpeg" <==> img.kind == KindGray || img.kind == KindYCbCr
    ensures f == "unknown" <==> img.kind == KindOther
  {
    match img.kind
    case KindRGBA => "png"
    case KindNRGBA => "png"
    case KindGray => "jpeg"
    case KindYCbCr => "jpeg"
    case KindOther => "unknown"
  }

  /** `png.CompressionLevel`. */
  datatype PngLevel = BestSpeed | NoCompression | DefaultCompression | BestCompression

  /** The encoder `EncodeImage` hands the image to, with the options it passes. */
  datatype Encoder =
    | PngEncoder(level: PngLevel)
    | GifEncoder                               // gif.Encode with nil options
    | TiffEncoder                              // tiff.Encode with nil options
    | WebpEncoder(lossless: bool, quality: int)
    | JpegEncoder(quality: int)

  /** The PNG compression level for a quality value. */
  function PngLevelFor(quality: int): PngLevel
  {
    if quality < 25 then BestSpeed
    else if quality < 50 then NoCompression
    else if quality < 75 then DefaultCompression
    else BestCompression
  }

  /** The encoder choice of `EncodeImage`: the format is compared after lower-casing. */
  function ChooseEncoder(format: string, quality: int): (e: Encoder)
    ensures e.PngEncoder? <==> ToLower(format) == "png"
    ensures e == GifEncoder <==> ToLower(format) == "gif"
    ensures e == TiffEncoder <==> ToLower(format) == "tiff"
    ensures e.WebpEncoder? <==> ToLower(format) == "webp"
    ensures e.JpegEncoder? <==> ToLower(format) !in {"png", "gif", "tiff", "webp"}
  {
    var f := ToLower(format);
    if f == "png" then PngEncoder(PngLevelFor(quality))
    else if f == "gif" then GifEncoder
    else if f == "tiff" then TiffEncoder
    else if f == "webp" then WebpEncoder(false, quality)
    else JpegEncoder(quality)
  }

  // ---------------------------------------------------------------- properties

  /** The four quality buckets are disjoint, cover every integer, and change exactly at 25, 50 and 75. */
  lemma PngBuckets(quality: int)
    ensures PngLevelFor(quality) == BestSpeed <==> quality < 25
    ensures PngLevelFor(quality) == NoCompression <==> 25 <= quality < 50
    ensures PngLevelFor(quality) == DefaultCompression <==> 50 <= quality < 75
    ensures PngLevelFor(quality) == BestCompression <==> 75 <= quality
  {
  }

  /** Formats that differ only in letter case (`"PNG"`, `"Png"`, `"png"`) choose the same encoder. */
  lemma FormatCaseInsensitive(f1: string, f2: string, quality: int)
    requires ToLower(f1) == ToLower(f2)
    ensures ChooseEncoder(f1, quality) == ChooseEncoder(f2, quality)
  {
  }

  /** The lossy encoders get the quality unchanged; WebP is never lossless. */
  lemma QualityPassedThrough(format: string, quality: int)
    ensures ChooseEncoder(format, quality).WebpEncoder? ==> ChooseEncoder(format, quality) == WebpEncoder(false, quality)
    ensures ChooseEncoder(format, quality).JpegEncoder? ==> ChooseEncoder(format, quality).quality == quality
  {
  }

  /** The empty format, `"jpeg"`, `"jpg"` and `"json"` all fall through to JPEG. */
  lemma JpegFallthrough(quality: int)
    ensures ChooseEncoder("", quality) == JpegEncoder(quality)
    ensures ChooseEncoder("jpeg", quality) == JpegEncoder(quality)
    ensures ChooseEncoder("jpg", quality) == JpegEncoder(quality)
    ensures ChooseEncoder("json", quality) == JpegEncoder(quality)
  {
    assert ToLower("jpeg") == "jpeg";
    assert ToLower("jpg") == "jpg";
    assert ToLower("json") == "json";
  }

  /** Upper-case spellings of the four named formats select their encoders. */
  lemma UpperCaseFormats(quality: int)
    ensures ChooseEncoder("PNG", quality) == PngEncoder(PngLevelFor(quality))
    ensures ChooseEncoder("GIF", quality) == GifEncoder
    ensures ChooseEncoder("TIFF", quality) == TiffEncoder
    ensures ChooseEncoder("WEBP", quality) == WebpEncoder(false, quality)
  {
    assert ToLower("PNG") == "png";
    assert ToLower("GIF") == "gif";
    assert ToLower("TIFF") == "tiff";
    assert ToLower("WEBP") == "webp";
  }
}

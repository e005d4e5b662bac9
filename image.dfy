/**
 * Image decoding and orientation (image.go).
 *
 * The codecs, the EXIF parsers and the rotation library are outside the
 * model: what they answer is an input (`DecodeEnv`), and a rotation is known
 * by the bounds of the image it returns.
 */
module Image {
  import opened Message

  // ---------------------------------------------------------------------
  // RotateImage
  // ---------------------------------------------------------------------

  /** The four things `RotateImage` can do: return its input, or one of the library's quarter turns. */
  datatype Rotation = Identity | Rotate90 | Rotate180 | Rotate270

  /** The rotation `RotateImage` applies for an EXIF orientation code. */
  function OrientationRotation(orientation: nat): (r: Rotation)
    ensures r == Rotate90 <==> orientation == 7 || orientation == 8
    ensures r == Rotate180 <==> orientation == 3 || orientation == 4
    ensures r == Rotate270 <==> orientation == 5 || orientation == 6
    ensures r == Identity <==> orientation <= 2 || orientation > 8
  {
    if orientation != 0 && orientation != 1 then
      if orientation == 7 || orientation == 8 then Rotate90
      else if orientation == 3 || orientation == 4 then Rotate180
      else if orientation == 5 || orientation == 6 then Rotate270
      else Identity
    else Identity
  }

  /** Whether `RotateImage` logs "Unsupported orientation" for a code. */
  predicate LogsUnsupported(orientation: nat)
  {
    orientation != 0 && orientation != 1 && OrientationRotation(orientation) == Identity
  }

  /** Every code other than 0, 1 and 3 to 8 is reported, 2 (a mirror image) included. */
  lemma UnsupportedCodes(orientation: nat)
    ensures LogsUnsupported(orientation) <==> orientation == 2 || orientation > 8
  {
  }

  /**
   * What the rotation library returns: a quarter turn counter-clockwise
   * (`Rotate90`) or clockwise (`Rotate270`) swaps width and height, a half
   * turn keeps them; every rotated image starts at the origin. `Identity`
   * is the input itself.
   */
  function Turn(r: Rotation, img: Raster): Raster
  {
    match r
    case Identity => img
    case Rotate90 => Raster(Rect(0, 0, img.bounds.Dy(), img.bounds.Dx()))
    case Rotate180 => Raster(Rect(0, 0, img.bounds.Dx(), img.bounds.Dy()))
    case Rotate270 => Raster(Rect(0, 0, img.bounds.Dy(), img.bounds.Dx()))
  }

  /** `RotateImage`: the image it returns, and whether it logged the code as unsupported. */
  function RotateImage(img: Raster, orientation: nat): (r: (Raster, bool))
    ensures orientation == 0 || orientation == 1 ==> r == (img, false)
    ensures r.1 <==> orientation == 2 || orientation > 8
    ensures r.1 ==> r.0 == img
    ensures r.0 != img ==> r.0.bounds.minX == 0 && r.0.bounds.minY == 0
    ensures (r.0.bounds.Dx(), r.0.bounds.Dy())
         == if 5 <= orientation <= 8 then (img.bounds.Dy(), img.bounds.Dx()) else (img.bounds.Dx(), img.bounds.Dy())
  {
    UnsupportedCodes(orientation);
    (Turn(OrientationRotation(orientation), img), LogsUnsupported(orientation))
  }

  /** Counter-clockwise quarter turns a rotation makes. */
  function CounterClockwiseQuarters(r: Rotation): nat
  {
    match r
    case Identity => 0
    case Rotate90 => 1
    case Rotate180 => 2
    case Rotate270 => 3
  }

  /**
   * The clockwise rotation, in degrees, that displays an image upright for the
   * codes of the EXIF Orientation tag (0x0112, as in TIFF 6.0) that involve no
   * mirroring: 1 is upright, 3 is upside down, 6 has its top on the right and
   * 8 has its top on the left.
   */
  function UprightClockwiseDegrees(orientation: nat): nat
    requires orientation in {1, 3, 6, 8}
  {
    if orientation == 1 then 0
    else if orientation == 3 then 180
    else if orientation == 6 then 90
    else 270
  }

  /** For the codes without mirroring, the rotation applied is the one that makes the image upright. */
  lemma UnmirroredCodesUpright(orientation: nat)
    requires orientation in {1, 3, 6, 8}
    ensures (CounterClockwiseQuarters(OrientationRotation(orientation)) * 90
             + UprightClockwiseDegrees(orientation)) % 360 == 0
  {
  }

  /**
   * The codes 5 to 8 are exactly those that store rows as columns; those are
   * exactly the codes `RotateImage` answers with a quarter turn, so the
   * returned image has the upright image's width and height for every code
   * from 1 to 8, mirrored ones included.
   */
  lemma QuarterTurnsForTransposedCodes(orientation: nat)
    requires 1 <= orientation <= 8
    ensures OrientationRotation(orientation) in {Rotate90, Rotate270} <==> 5 <= orientation <= 8
  {
  }

  // ---------------------------------------------------------------------
  // DecodeImageFile
  // ---------------------------------------------------------------------

  /** A `uint16`, the type of an EXIF Orientation value. */
  type Uint16 = x: int | 0 <= x < 0x1_0000

  /** What the Orientation lookup in the EXIF data gives: no such tag, an unreadable value, or a value. */
  datatype TagOutcome = NoOrientationTag | TagValueError | TagValue(value: Uint16)

  /**
   * The answers of the libraries `DecodeImageFile` calls: whether reading the
   * input fails; what `image.Decode` returns (an image, the format name and
   * whether it failed); whether the JPEG or PNG structure parser yields a
   * media context and whether it fails; the Orientation lookup in that
   * context; and what `gif.DecodeAll` returns (`None` on failure).
   */
  datatype DecodeEnv = DecodeEnv(
    readFails: bool,
    decoded: Option<Raster>, format: string, decodeFails: bool,
    hasContext: bool, parseFails: bool,
    tag: TagOutcome,
    gif: Option<Animation>)

  /** The five named results of `DecodeImageFile`; `err` says whether an error is returned. */
  datatype DecodeResult = DecodeResult(imageData: Option<Raster>, orientation: nat,
                                       gifImageData: Option<Animation>, extension: string, err: bool)

  /** Whether a structure parser runs, and so whether it decides the error: only for "jpeg" and "png". */
  predicate ParsesStructure(format: string)
  {
    format == "jpeg" || format == "png"
  }

  /**
   * `DecodeImageFile`, branch by branch. The parsers overwrite the decoder's
   * error; the EXIF lookups declare their own `err`, so they never change the
   * returned one; a GIF replaces both the image and the error.
   */
  function DecodeImageFile(env: DecodeEnv): (r: DecodeResult)
    ensures env.readFails ==> r == DecodeResult(None, 0, None, "", true)
    ensures r.extension == "gif" ==> r.imageData.None?
    ensures r.extension != "gif" ==> r.gifImageData.None?
    ensures r.orientation < 0x1_0000
  {
    if env.readFails then DecodeResult(None, 0, None, "", true)
    else
      var ext := env.format;
      var err := if ParsesStructure(ext) then env.parseFails else env.decodeFails;
      var hasContext := ParsesStructure(ext) && env.hasContext;
      var orientation := if hasContext && env.tag.TagValue? then env.tag.value else 0;
      if ext == "gif" then
        DecodeResult(None, orientation, env.gif, ext, env.gif.None?)
      else
        DecodeResult(env.decoded, orientation, None, ext, err)
  }

  /** The orientation stays 0 unless an Orientation value was read from a JPEG or PNG structure. */
  lemma OrientationDefault(env: DecodeEnv)
    ensures var r := DecodeImageFile(env);
            r.orientation != 0 ==>
              && !env.readFails && ParsesStructure(env.format) && env.hasContext
              && env.tag.TagValue? && r.orientation == env.tag.value
    ensures var r := DecodeImageFile(env);
            !env.readFails && ParsesStructure(env.format) && env.hasContext && env.tag.TagValue? ==>
              r.orientation == env.tag.value
  {
  }

  /**
   * For JPEG and PNG the structure parser's error replaces the decoder's:
   * a decoding failure is not reported when the parser succeeds, and a
   * decoded image comes with an error when the parser fails.
   */
  lemma ParserDecidesError(env: DecodeEnv)
    requires !env.readFails && ParsesStructure(env.format)
    ensures DecodeImageFile(env).err == env.parseFails
    ensures DecodeImageFile(env).imageData == env.decoded
  {
  }

  /** For a GIF only `gif.DecodeAll` counts: its animation and its error are returned, never a raster. */
  lemma GifResult(env: DecodeEnv)
    requires !env.readFails && env.format == "gif"
    ensures var r := DecodeImageFile(env);
            r.imageData.None? && r.gifImageData == env.gif && r.err == env.gif.None? && r.orientation == 0
  {
  }

  /** Any other format keeps the decoder's image and error, with orientation 0. */
  lemma OtherFormatResult(env: DecodeEnv)
    requires !env.readFails && !ParsesStructure(env.format) && env.format != "gif"
    ensures DecodeImageFile(env) == DecodeResult(env.decoded, 0, None, env.format, env.decodeFails)
  {
  }
}

/**
 * The value types of the image input/output layer: the colour-space pair
 * used when writing a file, the options used when reading one, and the
 * per-pixel-type traits table (channel count and storage base type).
 */
module ImageIO {

  /** The colour spaces an image can be read into or written from. */
  datatype EImageColorSpace = Auto | Linear | SRGB | ACES | ACEScg | Lab | XYZ | NoConversion

  /** The source and target colour spaces used when writing an output file. */
  datatype OutputFileColorSpace = OutputFileColorSpace(from: EImageColorSpace, to: EImageColorSpace)

  /** The default constructor: the member initialisers, linear to automatic. */
  function DefaultOutputFileColorSpace(): (c: OutputFileColorSpace)
    ensures c.from == Linear && c.to == Auto
  {
    OutputFileColorSpace(Linear, Auto)
  }

  /** The two-argument constructor keeps both colour spaces as given. */
  function OutputFileColorSpaceFromTo(from_: EImageColorSpace, to_: EImageColorSpace): (c: OutputFileColorSpace)
    ensures c.from == from_ && c.to == to_
  {
    OutputFileColorSpace(from_, to_)
  }

  /**
   * The one-argument constructor: the source stays linear, and a request for
   * no conversion makes the target equal to the source.
   */
  function OutputFileColorSpaceTo(to_: EImageColorSpace): (c: OutputFileColorSpace)
    ensures c.from == Linear
    ensures to_ == NoConversion ==> c.to == c.from
    ensures to_ != NoConversion ==> c.to == to_
    ensures c.to != NoConversion
  {
    var c := DefaultOutputFileColorSpace();
    if to_ == NoConversion then c.(to := c.from) else c.(to := to_)
  }

  /** The one-argument form is the two-argument form with a linear source. */
  lemma OneArgumentIsLinearSource(to_: EImageColorSpace)
    ensures OutputFileColorSpaceTo(to_)
         == OutputFileColorSpaceFromTo(Linear, if to_ == NoConversion then Linear else to_)
  {
  }

  /**
   * Asking for no conversion and asking for the linear target give the same
   * pair, and re-applying the one-argument constructor to its own target
   * changes nothing.
   */
  lemma OneArgumentNormalises(to_: EImageColorSpace)
    ensures OutputFileColorSpaceTo(NoConversion) == OutputFileColorSpaceTo(Linear)
    ensures OutputFileColorSpaceTo(OutputFileColorSpaceTo(to_).to) == OutputFileColorSpaceTo(to_)
  {
  }

  /**
   * An OpenImageIO region of interest. `Unbounded` is the default-constructed
   * region, which stands for the whole image.
   */
  datatype Roi =
    | Unbounded
    | Region(xBegin: int, xEnd: int, yBegin: int, yEnd: int,
             zBegin: int, zEnd: int, chBegin: int, chEnd: int)

  /** The options used when reading an image. */
  datatype ImageReadOptions = ImageReadOptions(outputColorSpace: EImageColorSpace,
                                               applyWhiteBalance: bool,
                                               subRoi: Roi)

  /**
   * The constructor, with the same defaulted trailing parameters: automatic
   * colour space, white balance applied, whole-image region.
   */
  function MakeImageReadOptions(colorSpace: EImageColorSpace := Auto,
                                useWhiteBalance: bool := true,
                                roi: Roi := Unbounded): (o: ImageReadOptions)
    ensures o.outputColorSpace == colorSpace
    ensures o.applyWhiteBalance == useWhiteBalance
    ensures o.subRoi == roi
  {
    ImageReadOptions(colorSpace, useWhiteBalance, roi)
  }

  /** What each omitted argument defaults to. */
  lemma ImageReadOptionsDefaults(colorSpace: EImageColorSpace, useWhiteBalance: bool)
    ensures MakeImageReadOptions() == ImageReadOptions(Auto, true, Unbounded)
    ensures MakeImageReadOptions(colorSpace) == ImageReadOptions(colorSpace, true, Unbounded)
    ensures MakeImageReadOptions(colorSpace, useWhiteBalance)
         == ImageReadOptions(colorSpace, useWhiteBalance, Unbounded)
  {
  }

  /** The pixel types the traits table is specialised for. */
  datatype PixelType = UnsignedChar | Float | RGBColor | RGBfColor | RGBAColor | RGBAfColor

  /** The two OpenImageIO base types the table uses. */
  datatype BaseType = UInt8 | Float32

  /** One row of the traits table. */
  datatype ColorTypeInfo = ColorTypeInfo(size: int, typeDesc: BaseType)

  /** A pixel type with red, green and blue channels. */
  predicate IsColor(t: PixelType) {
    t.RGBColor? || t.RGBfColor? || t.RGBAColor? || t.RGBAfColor?
  }

  /** A pixel type with an alpha channel. */
  predicate HasAlpha(t: PixelType) {
    t.RGBAColor? || t.RGBAfColor?
  }

  /** A pixel type whose components are floating point. */
  predicate IsFloatPixel(t: PixelType) {
    t.Float? || t.RGBfColor? || t.RGBAfColor?
  }

  /**
   * The traits table: the channel count is one for a grey level, three for a
   * colour and four with alpha; the base type is 8-bit unsigned for the byte
   * types and 32-bit float for the float types.
   */
  function ColorTypeInfoOf(t: PixelType): (r: ColorTypeInfo)
    ensures r.size == (if !IsColor(t) then 1 else if HasAlpha(t) then 4 else 3)
    ensures r.typeDesc == (if IsFloatPixel(t) then Float32 else UInt8)
  {
    match t
    case UnsignedChar => ColorTypeInfo(1, UInt8)
    case Float => ColorTypeInfo(1, Float32)
    case RGBColor => ColorTypeInfo(3, UInt8)
    case RGBfColor => ColorTypeInfo(3, Float32)
    case RGBAColor => ColorTypeInfo(4, UInt8)
    case RGBAfColor => ColorTypeInfo(4, Float32)
  }

  /** No two pixel types share a row: the traits identify the pixel type. */
  lemma ColorTypeInfoIdentifiesType(s: PixelType, t: PixelType)
    ensures ColorTypeInfoOf(s) == ColorTypeInfoOf(t) ==> s == t
  {
  }
}

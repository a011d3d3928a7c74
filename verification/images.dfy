/** Value types shared by the image processors: sizes, source images, the
    descriptors of the OpenCV matrices the processors allocate, crop ranges,
    registered image references and the processors' error conditions. */
module Images {

  /** OpenCV `Size`: `width` counts columns and `height` counts rows. */
  datatype Size = Size(width: int, height: int)

  /** OpenCV element depths and the type code of a matrix with `cn` channels
      (CV_MAKETYPE: the depth in the low three bits, `cn - 1` above them). */
  const CV_8U: int := 0
  const CV_64F: int := 6

  function MakeType(depth: int, cn: nat): (t: int)
    requires 0 <= depth < 8 && 1 <= cn
    ensures t % 8 == depth && t / 8 == cn - 1
  {
    depth + (cn - 1) * 8
  }

  const CV_8UC1: int := MakeType(CV_8U, 1)
  const CV_64FC1: int := MakeType(CV_64F, 1)
  const CV_64FC2: int := MakeType(CV_64F, 2)

  /** A source image as the processors see it through their `Mat *`: its
      dimensions, its channel count and its OpenCV type code. Pixel values
      are not modelled here; the core only reads these four attributes. */
  datatype Source = Source(rows: nat, cols: nat, nbChannels: nat, matType: int) {
    /** `Mat::size()`: (cols, rows). */
    function SizeOf(): Size { Size(cols, rows) }
  }

  /** A half-open range [first, last) of columns or of rows of an image. */
  datatype Crop = ColRange(first: int, last: int) | RowRange(first: int, last: int)

  /** What an allocated matrix holds: freshly allocated (unspecified) values,
      every element set to one scalar, or the area-resampling of a crop of the
      current source image. */
  datatype Content = Uninitialised | Filled(value: real) | Resampled(crop: Crop)

  /** An OpenCV matrix as a buffer descriptor: either empty (default constructed
      or released) or allocated with a size, a type code and a content. */
  datatype Mat = Empty | Mat(size: Size, matType: int, content: Content)

  /** A `Mat *` stored in a processor's registry: the object that owns the
      matrix and the name of the member holding it. */
  datatype ImageRef = ImageRef(owner: object, member: string)

  /** CvProcessorException codes raised by the processors. */
  datatype ProcessorError = NullImage | InvalidName

  /** A nullable pointer: `None` stands for NULL. */
  datatype Option<T> = None | Some(value: T)

  /** A value or the exception raised instead. */
  datatype Result<T> = Ok(value: T) | Err(error: ProcessorError)

  /** Normal completion or the exception raised instead. */
  datatype Outcome = Pass | Fail(error: ProcessorError)
}

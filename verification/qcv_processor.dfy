/** The Qt side of the processors: the number format shared by every Qt
    processor, and the change of source image with the notifications it
    sends. */
module QcvProcessing {
  import opened Images
  import opened Processor
  import opened NumberFormats

  /** Initial value of the static `defaultTimeOut`, in milliseconds. */
  const DefaultTimeOut: int := 5000

  /** The static members of QcvProcessor: one object shared by all
      processors, holding the message time-out and the 10-byte C string
      buffer of the number format. */
  class QcvProcessorStatics {
    var defaultTimeOut: int
    const numberFormat: array<char>

    /** The buffer has its declared size and holds a terminated C string. */
    ghost predicate Valid()
      reads this, numberFormat
    {
      && numberFormat.Length == FormatCapacity
      && |CString(numberFormat[..])| < numberFormat.Length
    }

    /** The format currently stored: the buffer up to its first NUL. */
    function NumberFormat(): (f: string)
      reads this, numberFormat
      requires Valid()
      ensures |f| < FormatCapacity && NoNul(f)
      ensures numberFormat[|f|] == '\0'
    {
      CString(numberFormat[..])
    }

    /** The static initialisers: "%8.1f ms" padded with NULs, and 5000 ms. */
    constructor ()
      ensures Valid() && fresh(numberFormat)
      ensures NumberFormat() == DefaultNumberFormat
      ensures defaultTimeOut == DefaultTimeOut
    {
      defaultTimeOut := DefaultTimeOut;
      numberFormat := new char[FormatCapacity](k => if 0 <= k < |DefaultNumberFormat| then DefaultNumberFormat[k] else '\0');
      new;
      assert numberFormat[..] == DefaultNumberFormat + ['\0'] + ['\0'];
      CStringOfCopy(DefaultNumberFormat, ['\0']);
    }

    /** setNumberFormat, with the length test corrected to leave room for
        the terminator: an accepted format is copied with its NUL into the
        buffer and becomes the stored format; a refused one changes nothing. */
    method SetNumberFormat(format: string) returns (installed: bool)
      requires Valid()
      modifies numberFormat
      ensures Valid()
      ensures installed <==> FormatAccepted(format)
      ensures installed ==> NumberFormat() == format
      ensures !installed ==> numberFormat[..] == old(numberFormat[..])
    {
      installed := AcceptsNumberFormat(format) && |format| < FormatCapacity;
      if installed {
        AcceptedFormatFits(format);
        forall k | 0 <= k < |format| {
          numberFormat[k] := format[k];
        }
        numberFormat[|format|] := '\0';
        ghost var rest := numberFormat[|format| + 1..];
        assert numberFormat[..] == format + ['\0'] + rest;
        CStringOfCopy(format, rest);
      }
    }
  }

  /** The Qt signals sent while the source image changes. */
  datatype Signal =
    | ImageChangedTo(image: Source)  // imageChanged(Mat *)
    | ImageChanged                   // imageChanged()
    | ImageSizeChanged
    | ImageColorsChanged
    | Updated                        // the forced update()

  /** The notifications of a successful change to `image`, given the size and
      channel count the processor had before. */
  function SourceChangeSignals(previousSize: Size, previousNbChannels: nat, image: Source): (s: seq<Signal>)
    ensures 3 <= |s| && s[0] == ImageChangedTo(image) && s[1] == ImageChanged && s[|s| - 1] == Updated
    ensures ImageSizeChanged in s <==> previousSize.width != image.cols || previousSize.height != image.rows
    ensures ImageColorsChanged in s <==> previousNbChannels != image.nbChannels
    ensures forall k :: 0 <= k < |s| && (s[k] == ImageSizeChanged || s[k] == ImageColorsChanged) ==> 2 <= k < |s| - 1
    ensures forall a, b :: 0 <= a < b < |s| ==> s[a] != s[b]
    ensures forall a, b :: 0 <= a < |s| && 0 <= b < |s| && s[a] == ImageSizeChanged && s[b] == ImageColorsChanged ==> a < b
  {
    [ImageChangedTo(image), ImageChanged]
    + (if previousSize.width != image.cols || previousSize.height != image.rows then [ImageSizeChanged] else [])
    + (if previousNbChannels != image.nbChannels then [ImageColorsChanged] else [])
    + [Updated]
  }

  class QcvProcessor {
    /** The CvProcessor part (a virtual base class in the source). */
    const processor: CvProcessor
    /** Whether a mutex guards the source image (sourceLock != NULL). */
    const hasSourceLock: bool
    /** Whether this processor currently holds that mutex. */
    var sourceLocked: bool

    ghost predicate Valid()
      reads this, processor
    {
      processor.Valid() && !sourceLocked
    }

    constructor (image: Source, hasSourceLock: bool)
      ensures Valid() && fresh(processor)
      ensures processor.sourceImage == image && processor.images == map[]
      ensures this.hasSourceLock == hasSourceLock
    {
      processor := new CvProcessor(image);
      this.hasSourceLock := hasSourceLock;
      sourceLocked := false;
    }

    /** setSourceImage with the lock released on both paths: a null image is
        refused with NULL_IMAGE, changes nothing and sends nothing; any other
        image becomes the source and the notifications are those of
        SourceChangeSignals for the size and channel count held before. */
    method SetSourceImage(image: Option<Source>) returns (r: Outcome, emitted: seq<Signal>)
      requires Valid()
      modifies this`sourceLocked, processor
      ensures Valid()
      ensures image.None? ==> r == Fail(NullImage) && emitted == [] && unchanged(processor)
      ensures image.Some? ==> r == Pass && processor.sourceImage == image.value
      ensures image.Some? ==> emitted == SourceChangeSignals(old(processor.sourceImage.SizeOf()), old(processor.nbChannels), image.value)
      ensures processor.images == old(processor.images)
    {
      var previousSize := processor.sourceImage.SizeOf();
      var previousNbChannels := processor.nbChannels;
      if hasSourceLock {
        sourceLocked := true;
      }
      r := processor.SetSourceImage(image);
      if hasSourceLock {
        sourceLocked := false;
      }
      if r.Fail? {
        emitted := [];
        return;
      }
      emitted := [ImageChangedTo(processor.sourceImage), ImageChanged];
      if previousSize.width != image.value.cols || previousSize.height != image.value.rows {
        emitted := emitted + [ImageSizeChanged];
      }
      if previousNbChannels != processor.nbChannels {
        emitted := emitted + [ImageColorsChanged];
      }
      emitted := emitted + [Updated];
    }

    /** setSourceImage as written: the lock is taken when there is one, and
        the NULL_IMAGE raised by the base call leaves the method before the
        unlock, so a null image leaves the source lock held. */
    method SetSourceImageAsWritten(image: Option<Source>) returns (r: Outcome, emitted: seq<Signal>)
      requires Valid()
      modifies this`sourceLocked, processor
      ensures sourceLocked <==> hasSourceLock && image.None?
      ensures image.None? ==> r == Fail(NullImage) && emitted == [] && unchanged(processor)
      ensures image.Some? ==> r == Pass && processor.sourceImage == image.value
      ensures image.Some? ==> emitted == SourceChangeSignals(old(processor.sourceImage.SizeOf()), old(processor.nbChannels), image.value)
    {
      var previousSize := processor.sourceImage.SizeOf();
      var previousNbChannels := processor.nbChannels;
      if hasSourceLock {
        sourceLocked := true;
      }
      r := processor.SetSourceImage(image);
      if r.Fail? {
        // the exception propagates past the unlock
        emitted := [];
        return;
      }
      if hasSourceLock {
        sourceLocked := false;
      }
      emitted := [ImageChangedTo(processor.sourceImage), ImageChanged];
      if previousSize.width != image.value.cols || previousSize.height != image.value.rows {
        emitted := emitted + [ImageSizeChanged];
      }
      if previousNbChannels != processor.nbChannels {
        emitted := emitted + [ImageColorsChanged];
      }
      emitted := emitted + [Updated];
    }
  }

  /** A processor with a source lock, given a null image by setSourceImage as
      written, is left holding its lock, so the next locker of the source
      image blocks for ever. */
  method NullImageLeavesSourceLocked(image: Source) returns (held: bool)
    ensures held
  {
    var q := new QcvProcessor(image, true);
    var r, emitted := q.SetSourceImageAsWritten(None);
    held := q.sourceLocked;
  }
}

# OpenCV image processors: DFT bookkeeping, named images and number formats

This project models the core of a small Qt/OpenCV teaching application
(`openCV_tp`). Processors read a borrowed source image and compute derived
images from it. The model covers four parts:

- The processor base class `CvProcessor`:
  - the source image and its cached channel count, size and type;
  - the registry of named images (`addImage`, `getImage`, `getImagePtr`);
  - the refusal of a null source image;
  - the BGR channel indices.
- The DFT processor `CvSimpleDFT`:
  - the square-crop geometry (`minSize`, `maxSize`, `borderSize`, `dftSize`);
  - the log-scale factor saturated into [5, 30];
  - the per-channel buffer lists that `setup` fills and `cleanup` empties;
  - the centred crop that starts `update`;
  - the two element-wise kernels, `frequencyShift` (multiply pixel (i, j)
    by (-1)^(i+j)) and `logScaleImg` (`scaleFactor * log(1 + x)`).
- The static `numberFormat` of the Qt processors and its validator
  `setNumberFormat`. A format must match
  `%[+- 0#]*[0-9]*([.][0-9]+)?[efEF]` in full and fit the 10-byte buffer.
- `QcvProcessor::setSourceImage` and the notifications it sends: which ones,
  when, and in which order.

Files:

- `images.dfy` (module `Images`): the value types.
  - `Size`, `Source`, `Crop`, `Mat`, `ImageRef`.
  - A `Mat` is a buffer descriptor: a size, an OpenCV type code and a
    content tag. It is not pixel data.
  - The error codes `NULL_IMAGE` and `INVALID_NAME`.
  - `Option` stands for a nullable pointer. `Result` and `Outcome` stand
    for "returns or throws".
- `processor.dfy` (module `Processor`): the class `CvProcessor` and the
  channel enum.
- `dft_kernels.dfy` (module `DftKernels`):
  - `FrequencyShift` on an `array2<real>`, specified by `ShiftedCell`.
  - `LogScaleImg` on an `array<real>` (a matrix in storage order),
    specified by `LogScaled`.
- `simple_dft.dfy` (module `SimpleDft`):
  - the clamp, the geometry `Plan` and the crop `CropOf`;
  - the buffer layouts;
  - the class `CvSimpleDFT`.
- `number_formats.dfy` (module `NumberFormats`):
  - the pattern as a declarative predicate `IsNumberFormat`;
  - a left-to-right recogniser `AcceptsNumberFormat`, proved equal to it;
  - the acceptance test, and the C string read from a `char` buffer.
- `qcv_processor.dfy` (module `QcvProcessing`):
  - the static members as one object `QcvProcessorStatics`;
  - the notification list `SourceChangeSignals`;
  - the class `QcvProcessor`.

C++ inheritance is modelled by composition:

- `CvSimpleDFT` and `QcvProcessor` each hold their `CvProcessor` part in a
  `const processor` field.
- OpenCV's `getOptimalDFTSize` is a function value given to the
  `CvSimpleDFT` constructor. No fact about its range is assumed.
- The natural logarithm is a parameter `log: real -> real`.

## Model

| member | source | states |
|---|---|---|
| Processor.ChannelIndex | ColorModels/CvProcessor.h:45-52 | BLUE and GRAY are index 0, GREEN is 1, RED is 2, and every index is below NBCHANNELS = 3 |
| Processor.CvProcessor.constructor | ColorModels/CvProcessor.h:100-107 | a processor is built from a non-null source image; the cached channel count, size and type agree with it, and no image is registered yet |
| Processor.CvProcessor.Setup | ColorModels/CvProcessor.h:266-273 | a full base setup installs the new source image and resynchronises the cached attributes; the registry is kept |
| Processor.CvProcessor.SetSourceImage | ColorModels/CvProcessor.h:123-131 | a null image raises NULL_IMAGE and changes nothing; any other image becomes the source, with cached attributes in step and the registry kept |
| Processor.CvProcessor.AddImage | ColorModels/CvProcessor.h:133-149 | returns true exactly when the name was not registered, and then registers the image; an existing entry is never replaced; other names are untouched, and the key set grows by the name only |
| Processor.CvProcessor.GetImage | ColorModels/CvProcessor.h:167-187 | succeeds exactly for registered names and yields the registered image; an unknown name raises INVALID_NAME |
| Processor.CvProcessor.GetImagePtr | ColorModels/CvProcessor.h:189-209 | follows the same rule as GetImage for every name |
| Processor.CvProcessor.GetNbChannels | ColorModels/CvProcessor.h:213-217 | returns the channel count of the current source image |
| Processor.CvProcessor.GetType | ColorModels/CvProcessor.h:219-223 | returns the OpenCV type of the current source image |
| DftKernels.PowerOfMinusOne | Input/CvSimpleDFT.cpp:306 | (-1)^k is 1 for an even k and -1 for an odd k |
| DftKernels.ShiftedCellParity | Input/CvSimpleDFT.cpp:297-309 | the shift keeps an element where i + j is even and negates it where i + j is odd |
| DftKernels.ShiftedCellInvolution | Input/CvSimpleDFT.h:201-205 | shifting an element twice gives it back, so one routine serves the forward and the reverse direction |
| DftKernels.Shifted | Input/CvSimpleDFT.h:235-238 | the shifted image has the shape of its input |
| DftKernels.ShiftedAt | Input/CvSimpleDFT.h:235-238 | each element of the shifted image is the input element times (-1)^(i+j): kept for an even i + j, negated for an odd one |
| DftKernels.ShiftTwiceIsIdentity | Input/CvSimpleDFT.h:201-238 | shifting a whole image twice returns the original image |
| DftKernels.FrequencyShift | Input/CvSimpleDFT.cpp:297-309 | every element of imgIn's extent in imgOut becomes the input element (read before any write, so imgIn and imgOut may alias) times (-1)^(i+j); elements of imgOut outside that extent are untouched; that block of imgOut equals Shifted of the old block of imgIn, so with ShiftTwiceIsIdentity two in-place runs restore the image |
| DftKernels.LogScaled | Input/CvSimpleDFT.cpp:318-330 | the output keeps its length |
| DftKernels.LogScaledAt | Input/CvSimpleDFT.h:245-253 | a visited output element is scaleFactor * log(1 + input element) |
| DftKernels.LogScaledBeyond | Input/CvSimpleDFT.cpp:326-329 | the walk stops at the end of the shorter matrix; output elements past the input's end keep their value |
| DftKernels.LogScaleOfZeroIsZero | Input/CvSimpleDFT.h:249-250 | with log(1) = 0, an all-zero magnitude gives an all-zero log magnitude |
| DftKernels.LogScaleImg | Input/CvSimpleDFT.cpp:318-330 | the output array becomes exactly the lock-step log scaling of the old input over the old output; the arrays may alias |
| SimpleDft.ClampLogScaleFactor | Input/CvSimpleDFT.cpp:270-284 | a request above 30 stores 30, one below 5 stores 5, one in [5, 30] is kept exactly; the result is always in [5, 30] |
| SimpleDft.ClampIsIdempotent | Input/CvSimpleDFT.cpp:261-284 | setting back the value the getter returns changes nothing, and the constructor's default 10 is already in range |
| SimpleDft.Plan | Input/CvSimpleDFT.cpp:34-36 | minSize is the shorter side and maxSize the longer one; 0 <= 2 * borderSize <= maxSize - minSize <= 2 * borderSize + 1 |
| SimpleDft.CropOf | Input/CvSimpleDFT.cpp:155-176 | a source wider than high is cropped to a column range inside [0, cols) exactly rows wide, otherwise to a row range inside [0, rows) exactly cols high; the two margins differ by at most one; a square source is used whole |
| SimpleDft.Planes | Input/CvSimpleDFT.h:68-118 | a per-channel list of n entries, each allocated at one size and type |
| SimpleDft.ZeroImaginaryPair | Input/CvSimpleDFT.cpp:93-100 | a complex input entry has two planes, the imaginary one all zeros |
| SimpleDft.SpectrumPair | Input/CvSimpleDFT.h:94-97 | a complex spectrum entry has two CV_64FC1 planes |
| SimpleDft.ComplexInputPairs | Input/CvSimpleDFT.h:78-82 | n complex input entries, each a zero-imaginary pair |
| SimpleDft.SpectrumPairs | Input/CvSimpleDFT.h:94-97 | n complex spectrum entries, each a two-plane pair |
| SimpleDft.CvSimpleDFT.constructor | Input/CvSimpleDFT.cpp:32-47 | the geometry is that of the source, dftSize is optimal x optimal for the getOptimalDFTSize given by the caller (kept as the processor's optimalSize), the factor is 10, every per-channel list has one entry per channel, and exactly "square" and "spectrum" are registered |
| SimpleDft.CvSimpleDFT.Setup | Input/CvSimpleDFT.cpp:62-102 | from empty lists, every per-channel list gets exactly nbChannels entries, each complex entry two planes, and plane [i][1] of the complex input is zero; a full setup (the default) also installs the source and recomputes the geometry; the log scale factor is never reset |
| SimpleDft.CvSimpleDFT.SetupGeometry | Input/CvSimpleDFT.cpp:65-77 | a full setup installs the source, recomputes minSize, maxSize, borderSize and the square dftSize, and reallocates the square frame and the spectrum image |
| SimpleDft.CvSimpleDFT.AllocateChannels | Input/CvSimpleDFT.cpp:80-101 | the per-channel loop turns empty lists into the layout of n channels |
| SimpleDft.CvSimpleDFT.AppendChannel | Input/CvSimpleDFT.cpp:82-100 | one iteration extends every list by the entry of channel i, with two planes and a zero imaginary input plane |
| SimpleDft.CvSimpleDFT.Cleanup | Input/CvSimpleDFT.cpp:104-141 | every per-channel list is empty, and the spectrum image and the square frame are released; the geometry and the factor are kept |
| SimpleDft.CvSimpleDFT.ReleaseChannels | Input/CvSimpleDFT.cpp:106-124 | the loop over nbChannels releases every buffer of every channel and empties every complex entry, before the lists themselves are cleared |
| SimpleDft.CvSimpleDFT.ReleaseChannel | Input/CvSimpleDFT.cpp:106-124 | one iteration releases every buffer of channel i and empties its complex lists; every list is otherwise unchanged, so other channels are untouched |
| SimpleDft.CvSimpleDFT.SetSourceImage | Input/QcvSimpleDFT.cpp:65-75 | a null image raises NULL_IMAGE and changes nothing; otherwise the old buffers are cleaned up and a full setup for the new image follows: the square frame is freshly allocated at the new dftSize with no crop of the old source left in it, and the log scale factor and the registry are kept |
| SimpleDft.CvSimpleDFT.Update | Input/CvSimpleDFT.cpp:146-176 | the square frame becomes the centred crop of CropOf, resampled to dftSize |
| SimpleDft.CvSimpleDFT.GetOptimalDftSize | Input/CvSimpleDFT.cpp:252-255 | returns the optimal DFT size of the current source's shorter side, which is both sides of dftSize |
| SimpleDft.CvSimpleDFT.GetLogScaleFactor | Input/CvSimpleDFT.cpp:261-264 | the factor returned is always in [5, 30] |
| SimpleDft.CvSimpleDFT.SetLogScaleFactor | Input/CvSimpleDFT.cpp:270-284 | stores 30 above 30, 5 below 5, the value itself otherwise; the processor stays valid |
| NumberFormats.AcceptsNumberFormatIff | ColorModels/QcvProcessor.cpp:27 | the recogniser accepts a string exactly when the whole string matches the pattern |
| NumberFormats.AcceptedFormatHasNoNul | ColorModels/QcvProcessor.cpp:27 | a matching format holds no NUL character |
| NumberFormats.AcceptedFormatFits | ColorModels/QcvProcessor.cpp:93-96 | a format that passes the corrected test FormatAccepted (pattern and strlen < 10) fits the buffer with its terminator |
| NumberFormats.AsWrittenTestOverflowsBuffer | ColorModels/QcvProcessor.cpp:93-96 | the test as written, FormatAcceptedAsWritten (pattern and strlen <= 10), accepts the 10-character "%000000.1f", whose copy needs 11 bytes; the corrected test refuses it |
| NumberFormats.DefaultFormatIsRefused | ColorModels/QcvProcessor.cpp:21-27 | the initial "%8.1f ms" does not match the pattern, so it cannot be set back |
| NumberFormats.CStringOfCopy | ColorModels/QcvProcessor.cpp:96 | after strcpy, the buffer's C string is the copied format, whatever follows the terminator |
| QcvProcessing.QcvProcessorStatics.constructor | ColorModels/QcvProcessor.cpp:16-21 | the initial state has numberFormat "%8.1f ms" in a freshly allocated buffer and defaultTimeOut 5000 |
| QcvProcessing.QcvProcessorStatics.NumberFormat | ColorModels/QcvProcessor.cpp:21 | the stored format is a terminated string shorter than the buffer |
| QcvProcessing.QcvProcessorStatics.SetNumberFormat | ColorModels/QcvProcessor.cpp:83-102 | installs the format exactly when it matches the pattern and fits, and then the stored format is that format; a refused format leaves the buffer unchanged |
| QcvProcessing.SourceChangeSignals | ColorModels/QcvProcessor.cpp:142-175 | imageChanged(image) comes first, then imageChanged(), and the list ends with the forced update; imageSizeChanged is sent iff the width or height differs from the previous size; imageColorsChanged iff the channel count differs; each is sent at most once, the size signal before the colour signal |
| QcvProcessing.NullImageLeavesSourceLocked | ColorModels/QcvProcessor.cpp:145-157 | a newly built processor with a source lock, given a null image by setSourceImage as written, is left holding the lock |
| QcvProcessing.QcvProcessor.constructor | ColorModels/QcvProcessor.cpp:37-47 | the base part is built on the source image, with no lock held |
| QcvProcessing.QcvProcessor.SetSourceImage | ColorModels/QcvProcessor.cpp:134-176 | a null image raises NULL_IMAGE, sends nothing and changes nothing; otherwise the image becomes the source and the signals sent are SourceChangeSignals of the size and channel count held before; the lock is free afterwards on both paths |
| QcvProcessing.QcvProcessor.SetSourceImageAsWritten | ColorModels/QcvProcessor.cpp:134-176 | the method as written: the lock is taken when there is one, and the NULL_IMAGE of the base call leaves before the unlock; afterwards the lock is held exactly when there is a lock and the image is null; otherwise it has the same outcome and signals as SetSourceImage |

## Left out

- OpenCV's `resize` (INTER_AREA), `getOptimalDFTSize`, `Mat` allocation
  and `release` are not modelled inside. A `Mat` is a descriptor with a
  content tag, and `getOptimalDFTSize` is an uninterpreted function value.
- The DFT, magnitude, merge, split and display conversion steps of
  `update` exist in the source only as comments (Input/CvSimpleDFT.cpp:182-244),
  so `Update` models only the crop.
- Floating point is not modelled. Values are exact reals, `pow(-1.0, i+j)`
  is an exact power, and `log` is an abstract parameter.
- `logScaleImg` walks two matrices with iterators in storage order. The
  model walks two flat arrays, so a matrix's row layout is not represented.
- Threads, `moveToThread`, `wait` and mutex blocking are not modelled. The
  source lock is a flag that records whether it is held. The locks taken in
  `QcvSimpleDFT::update` are not modelled.
- GUI, OpenGL rendering and status-message text are not modelled. This
  includes the `sprintf` of the process time in `QcvProcessor::update`:
  the forced update is the single `Updated` signal.
- Other things not modelled: the verbose level and its log output, the
  process-time measurement, `setTimePerFeature`, and the `finished` signal
  of the destructor.
- `ColorModels/CvProcessor.cpp` is not part of this model. Three things are
  modelled from the header's doc comments instead:
  - the bodies of `setSourceImage`, `addImage`, `getImage`, `getImagePtr`,
    `setup` and `cleanup` of `CvProcessor`;
  - for a DFT processor, `setSourceImage` as a cleanup followed by a full
    setup (the comment at Input/QcvSimpleDFT.cpp:66-67);
  - `CvProcessor::cleanup` as doing nothing to the modelled state.
- The borrowed `Mat *sourceImage` is modelled as a `Source` value, a
  snapshot of the image's rows, cols, channel count and type. A change made
  in place to the shared image behind the same pointer is not modelled.
  This matters for two places that read the pointer live:
  - `QcvProcessor::setSourceImage` takes the previous size through the
    pointer (ColorModels/QcvProcessor.cpp:142) but the previous channel
    count from the cached `nbChannels` (line 143). If the same image is
    resized in place and passed again, the source sends no
    `imageSizeChanged`, while `imageColorsChanged` still compares against
    the old count. QcvProcessing.QcvProcessor.SetSourceImage always sends
    `ImageSizeChanged` when the dimensions differ from the snapshot.
  - `CvSimpleDFT::update` reads `sourceImage->cols/rows` live
    (Input/CvSimpleDFT.cpp:155) but uses the cached `borderSize` and
    `minSize`. In the model, the snapshot and the cached geometry always
    agree.
- SimpleDft.CvSimpleDFT.Setup requires empty per-channel lists. The source
  calls it only after construction or after `cleanup`. With non-empty
  lists, its `[i]` indexing would address older entries.
- `QcvSimpleDFT::setSourceImage`'s extra signals (`squareImageChanged`,
  `spectrumImageChanged`, a second `imageSizeChanged` when `dftSize`
  changes, `sendText`) are not modelled.
- `Histograms/QcvProcessor.h` only declares the same `setNumberFormat` and
  `setSourceImage` again. It is not modelled separately.
- The static `numberFormat` and `defaultTimeOut` are modelled as one
  shared `QcvProcessorStatics` object, not as class-level storage.
- QcvProcessing.QcvProcessorStatics.SetNumberFormat: the `qWarning` issued
  for a refused format is not modelled. The model states only that the
  buffer is unchanged.
- In the pattern's class `[+- 0#]`, the `-` sits between `+` and a space,
  which reads as a backwards range. The model takes the evidently intended
  set {`+`, `-`, space, `0`, `#`} and does not reproduce how QRegExp
  treats the range.
- The comment at Input/CvSimpleDFT.cpp:24 gives 20 as the maximum log scale
  factor, but the code sets 30. The model follows the code.

## Findings

| source | as written | input that shows it | evidently intended | confidence | as-written member | corrected member |
|---|---|---|---|---|---|---|
| ColorModels/QcvProcessor.cpp:93-96 | `strlen(format) <= 10` guards a `strcpy` into `char numberFormat[10]` | `"%000000.1f"`: it matches the pattern and has 10 characters, so the copy writes 11 bytes, one past the buffer | `strlen(format) < 10`, leaving room for the terminator | high; not executed | NumberFormats.AsWrittenTestOverflowsBuffer | QcvProcessing.QcvProcessorStatics.SetNumberFormat |
| ColorModels/QcvProcessor.cpp:145-157 | the source lock is taken, then `CvProcessor::setSourceImage` raises NULL_IMAGE on a null image and the `unlock` is skipped | a processor with a source lock and `setSourceImage(NULL)`: the lock stays held and the next locker blocks | release the lock on the exception path too | medium; not executed | QcvProcessing.QcvProcessor.SetSourceImageAsWritten | QcvProcessing.QcvProcessor.SetSourceImage |

/** The DFT processor: crops the source image to its centred square, keeps
    that square and the spectrum image at the optimal DFT size, and owns one
    set of intermediate buffers per channel. */
module SimpleDft {
  import opened Images
  import opened Processor

  // ---------------------------------------------------------------------
  // Log scale factor bounds
  // ---------------------------------------------------------------------

  const MinLogScaleFactor: real := 5.0
  const MaxLogScaleFactor: real := 30.0
  /** The value set by the constructor. */
  const DefaultLogScaleFactor: real := 10.0

  /** The stored value for a requested log scale factor: requests above the
      maximum saturate to the maximum, requests below the minimum to the
      minimum, and requests in range are kept exactly. */
  function ClampLogScaleFactor(v: real): (r: real)
    ensures MinLogScaleFactor <= r <= MaxLogScaleFactor
    ensures MinLogScaleFactor <= v <= MaxLogScaleFactor ==> r == v
    ensures v > MaxLogScaleFactor ==> r == MaxLogScaleFactor
    ensures v < MinLogScaleFactor ==> r == MinLogScaleFactor
  {
    if v > MaxLogScaleFactor then MaxLogScaleFactor
    else if v < MinLogScaleFactor then MinLogScaleFactor
    else v
  }

  /** Setting back the value in effect changes nothing, and the default is
      already in range. */
  lemma ClampIsIdempotent(v: real)
    ensures ClampLogScaleFactor(ClampLogScaleFactor(v)) == ClampLogScaleFactor(v)
    ensures ClampLogScaleFactor(DefaultLogScaleFactor) == DefaultLogScaleFactor
  {
  }

  // ---------------------------------------------------------------------
  // Square-crop geometry
  // ---------------------------------------------------------------------

  /** minSize, maxSize and borderSize of a rows x cols source. */
  datatype Geometry = Geometry(minSize: int, maxSize: int, borderSize: int)

  /** The crop geometry: minSize is the shorter side, maxSize the longer one
      and borderSize the margin that centres a minSize-long range in the
      longer side (the two margins differ by at most one). */
  function Plan(rows: nat, cols: nat): (g: Geometry)
    ensures g.minSize <= rows && g.minSize <= cols && (g.minSize == rows || g.minSize == cols)
    ensures g.maxSize >= rows && g.maxSize >= cols && (g.maxSize == rows || g.maxSize == cols)
    ensures 0 <= 2 * g.borderSize <= g.maxSize - g.minSize <= 2 * g.borderSize + 1
  {
    var minSize := if rows < cols then rows else cols;
    var maxSize := if rows > cols then rows else cols;
    Geometry(minSize, maxSize, (maxSize - minSize) / 2)
  }

  /** The range of the source that update() resamples: the centred columns
      of a source wider than high, otherwise the centred rows. The range lies
      inside the image and is exactly as long as the other side, so the crop
      is square; a square source is used whole. */
  function CropOf(rows: nat, cols: nat): (c: Crop)
    ensures cols > rows ==> c.ColRange? && 0 <= c.first && c.last <= cols && c.last - c.first == rows
    ensures cols > rows ==> c.first <= cols - c.last <= c.first + 1
    ensures cols <= rows ==> c.RowRange? && 0 <= c.first && c.last <= rows && c.last - c.first == cols
    ensures cols <= rows ==> c.first <= rows - c.last <= c.first + 1
    ensures rows == cols ==> c == RowRange(0, rows)
  {
    var g := Plan(rows, cols);
    if cols > rows then ColRange(g.borderSize, g.borderSize + g.minSize)
    else RowRange(g.borderSize, g.borderSize + g.minSize)
  }

  // ---------------------------------------------------------------------
  // Per-channel buffer layout
  // ---------------------------------------------------------------------

  /** `n` freshly allocated single matrices of one size and type. */
  function Planes(n: nat, size: Size, matType: int): (ps: seq<Mat>)
    ensures |ps| == n
    ensures forall k :: 0 <= k < n ==> ps[k] == Mat(size, matType, Uninitialised)
  {
    seq(n, _ => Mat(size, matType, Uninitialised))
  }

  /** A complex input pair: the real plane, and the imaginary plane set to 0. */
  function ZeroImaginaryPair(size: Size): (p: seq<Mat>)
    ensures |p| == 2 && p[1] == Mat(size, CV_64FC1, Filled(0.0))
  {
    [Mat(size, CV_64FC1, Uninitialised), Mat(size, CV_64FC1, Filled(0.0))]
  }

  /** A complex spectrum pair: real and imaginary planes. */
  function SpectrumPair(size: Size): (p: seq<Mat>)
    ensures |p| == 2 && p[0] == p[1] == Mat(size, CV_64FC1, Uninitialised)
  {
    [Mat(size, CV_64FC1, Uninitialised), Mat(size, CV_64FC1, Uninitialised)]
  }

  /** `n` complex input pairs with a zero imaginary plane. */
  function ComplexInputPairs(n: nat, size: Size): (ps: seq<seq<Mat>>)
    ensures |ps| == n
    ensures forall k :: 0 <= k < n ==> ps[k] == ZeroImaginaryPair(size)
  {
    seq(n, _ => ZeroImaginaryPair(size))
  }

  /** `n` complex spectrum pairs. */
  function SpectrumPairs(n: nat, size: Size): (ps: seq<seq<Mat>>)
    ensures |ps| == n
    ensures forall k :: 0 <= k < n ==> ps[k] == SpectrumPair(size)
  {
    seq(n, _ => SpectrumPair(size))
  }

  /** Appending one more channel's entry extends each layout by one. */
  lemma LayoutsSnoc(n: nat, size: Size)
    ensures forall t :: Planes(n + 1, size, t) == Planes(n, size, t) + [Mat(size, t, Uninitialised)]
    ensures ComplexInputPairs(n + 1, size) == ComplexInputPairs(n, size) + [ZeroImaginaryPair(size)]
    ensures SpectrumPairs(n + 1, size) == SpectrumPairs(n, size) + [SpectrumPair(size)]
  {
    forall t
      ensures Planes(n + 1, size, t) == Planes(n, size, t) + [Mat(size, t, Uninitialised)]
    {
    }
  }

  class CvSimpleDFT {
    /** The processor base part: source image, cached attributes, registry. */
    const processor: CvProcessor
    /** OpenCV getOptimalDFTSize, whose implementation is not modelled. */
    const optimalSize: int -> int

    var minSize: int
    var maxSize: int
    var borderSize: int
    var optimalDFTSize: int
    var dftSize: Size
    /** The source cropped to a square and resized to dftSize. */
    var inFrameSquare: Mat
    /** One entry per channel in each list. */
    var channels: seq<Mat>
    var channelsDouble: seq<Mat>
    var channelsDoubleComplexComponents: seq<seq<Mat>>
    var channelsComplexImages: seq<Mat>
    var channelsComplexSpectrums: seq<Mat>
    var channelsComplexSpectrumComponents: seq<seq<Mat>>
    var channelsSpectrumMagnitude: seq<Mat>
    var logScaleFactor: real
    var channelsSpectrumLogMagnitude: seq<Mat>
    var channelsSpectrumLogMagnitudeDisplay: seq<Mat>
    /** The merged display spectrum. */
    var spectrumMagnitudeImage: Mat

    /** The geometry fields are those of the current source image, and the
        transform size is square with the optimal DFT size as its side. */
    ghost predicate GeometryValid()
      reads this`minSize, this`maxSize, this`borderSize, this`optimalDFTSize, this`dftSize, processor
    {
      && processor.Valid()
      && var g := Plan(processor.sourceImage.rows, processor.sourceImage.cols);
      && minSize == g.minSize
      && maxSize == g.maxSize
      && borderSize == g.borderSize
      && optimalDFTSize == optimalSize(minSize)
      && dftSize == Size(optimalDFTSize, optimalDFTSize)
    }

    /** Every per-channel list is empty. */
    ghost predicate BuffersReleased()
      reads this`channels, this`channelsDouble, this`channelsDoubleComplexComponents,
        this`channelsComplexImages, this`channelsComplexSpectrums, this`channelsComplexSpectrumComponents,
        this`channelsSpectrumMagnitude, this`channelsSpectrumLogMagnitude, this`channelsSpectrumLogMagnitudeDisplay
    {
      && channels == []
      && channelsDouble == []
      && channelsDoubleComplexComponents == []
      && channelsComplexImages == []
      && channelsComplexSpectrums == []
      && channelsComplexSpectrumComponents == []
      && channelsSpectrumMagnitude == []
      && channelsSpectrumLogMagnitude == []
      && channelsSpectrumLogMagnitudeDisplay == []
    }

    /** Every per-channel list holds one entry per channel of the source,
        allocated at dftSize; each complex list entry holds two planes and
        the imaginary input plane is zero. */
    ghost predicate BuffersAllocated()
      reads this, processor
    {
      ChannelListsAre(processor.nbChannels)
    }

    /** The square frame and the spectrum image are allocated at dftSize with
        the source's type. */
    ghost predicate FramesAllocated()
      reads this`inFrameSquare, this`spectrumMagnitudeImage, this`dftSize, processor
    {
      && inFrameSquare.Mat? && inFrameSquare.size == dftSize
      && inFrameSquare.matType == processor.imageType
      && spectrumMagnitudeImage == Mat(dftSize, processor.imageType, Uninitialised)
    }

    ghost predicate Valid()
      reads this, processor
    {
      && GeometryValid()
      && MinLogScaleFactor <= logScaleFactor <= MaxLogScaleFactor
      && FramesAllocated()
      && BuffersAllocated()
    }

    /** Builds the processor for a (non-null) source image: geometry from the
        source, default log scale factor, a partial setup, then registers the
        square frame and the spectrum image. */
    constructor (sourceImage: Source, optimalSize: int -> int)
      ensures Valid() && fresh(processor)
      ensures processor.sourceImage == sourceImage && this.optimalSize == optimalSize
      ensures logScaleFactor == DefaultLogScaleFactor
      ensures processor.images == map["square" := ImageRef(this, "inFrameSquare"),
                                      "spectrum" := ImageRef(this, "spectrumMagnitudeImage")]
    {
      processor := new CvProcessor(sourceImage);
      this.optimalSize := optimalSize;
      var g := Plan(sourceImage.rows, sourceImage.cols);
      minSize := g.minSize;
      maxSize := g.maxSize;
      borderSize := g.borderSize;
      optimalDFTSize := optimalSize(g.minSize);
      dftSize := Size(optimalSize(g.minSize), optimalSize(g.minSize));
      inFrameSquare := Mat(Size(optimalSize(g.minSize), optimalSize(g.minSize)), sourceImage.matType, Uninitialised);
      logScaleFactor := DefaultLogScaleFactor;
      spectrumMagnitudeImage := Mat(Size(optimalSize(g.minSize), optimalSize(g.minSize)), sourceImage.matType, Uninitialised);
      channels, channelsDouble, channelsDoubleComplexComponents := [], [], [];
      channelsComplexImages, channelsComplexSpectrums, channelsComplexSpectrumComponents := [], [], [];
      channelsSpectrumMagnitude, channelsSpectrumLogMagnitude, channelsSpectrumLogMagnitudeDisplay := [], [], [];
      new;
      Setup(sourceImage, false);
      var _ := processor.AddImage("square", ImageRef(this, "inFrameSquare"));
      var _ := processor.AddImage("spectrum", ImageRef(this, "spectrumMagnitudeImage"));
    }

    /** Setup after a cleanup or at construction (every per-channel list is
        empty then). A full setup installs the source, recomputes the
        geometry and reallocates the square frame and the spectrum image; a
        partial one keeps them. Both then append one entry per channel to
        every per-channel list and zero the imaginary input planes. The log
        scale factor is never reset. */
    method Setup(sourceImage: Source, fullSetup: bool := true)
      requires BuffersReleased() && MinLogScaleFactor <= logScaleFactor <= MaxLogScaleFactor
      requires !fullSetup ==> GeometryValid() && FramesAllocated()
      modifies this, processor
      ensures Valid()
      ensures logScaleFactor == old(logScaleFactor)
      ensures processor.images == old(processor.images)
      ensures fullSetup ==> processor.sourceImage == sourceImage
      ensures fullSetup ==> inFrameSquare == Mat(dftSize, processor.imageType, Uninitialised)
      ensures !fullSetup ==> unchanged(processor) && inFrameSquare == old(inFrameSquare)
    {
      if fullSetup {
        SetupGeometry(sourceImage);
      }

      AllocateChannels(processor.nbChannels);
    }

    /** The full-setup part of setup: install the source in the base part,
        recompute the geometry and reallocate the square frame and the
        spectrum image at the new dftSize. */
    method SetupGeometry(sourceImage: Source)
      modifies processor, this`minSize, this`maxSize, this`borderSize, this`optimalDFTSize, this`dftSize,
        this`inFrameSquare, this`spectrumMagnitudeImage
      ensures GeometryValid() && FramesAllocated()
      ensures processor.sourceImage == sourceImage && processor.images == old(processor.images)
      ensures inFrameSquare == Mat(dftSize, processor.imageType, Uninitialised)
    {
      processor.Setup(sourceImage);
      minSize := if sourceImage.rows < sourceImage.cols then sourceImage.rows else sourceImage.cols;
      maxSize := if sourceImage.rows > sourceImage.cols then sourceImage.rows else sourceImage.cols;
      borderSize := (maxSize - minSize) / 2;
      optimalDFTSize := optimalSize(minSize);
      dftSize := Size(optimalDFTSize, optimalDFTSize);
      inFrameSquare := Mat(dftSize, processor.imageType, Uninitialised);
      spectrumMagnitudeImage := Mat(dftSize, processor.imageType, Uninitialised);
    }

    /** The per-channel loop of setup, from empty lists. */
    method AllocateChannels(n: nat)
      requires BuffersReleased()
      modifies this`channels, this`channelsDouble, this`channelsDoubleComplexComponents,
        this`channelsComplexImages, this`channelsComplexSpectrums, this`channelsComplexSpectrumComponents,
        this`channelsSpectrumMagnitude, this`channelsSpectrumLogMagnitude, this`channelsSpectrumLogMagnitudeDisplay
      ensures ChannelListsAre(n)
    {
      for i := 0 to n
        invariant ChannelListsAre(i)
      {
        AppendChannel(i);
      }
    }

    /** Every per-channel list holds the layout of `n` channels at dftSize. */
    ghost predicate ChannelListsAre(n: nat)
      reads this`dftSize, this`channels, this`channelsDouble, this`channelsDoubleComplexComponents,
        this`channelsComplexImages, this`channelsComplexSpectrums, this`channelsComplexSpectrumComponents,
        this`channelsSpectrumMagnitude, this`channelsSpectrumLogMagnitude, this`channelsSpectrumLogMagnitudeDisplay
    {
      && channels == Planes(n, dftSize, CV_8UC1)
      && channelsDouble == Planes(n, dftSize, CV_64FC1)
      && channelsDoubleComplexComponents == ComplexInputPairs(n, dftSize)
      && channelsComplexImages == Planes(n, dftSize, CV_64FC2)
      && channelsComplexSpectrums == Planes(n, dftSize, CV_64FC2)
      && channelsComplexSpectrumComponents == SpectrumPairs(n, dftSize)
      && channelsSpectrumMagnitude == Planes(n, dftSize, CV_64FC1)
      && channelsSpectrumLogMagnitude == Planes(n, dftSize, CV_64FC1)
      && channelsSpectrumLogMagnitudeDisplay == Planes(n, dftSize, CV_8UC1)
    }

    /** One iteration of the setup loop: appends the buffers of channel `i`
        to every per-channel list, two planes to its complex lists, and zeroes
        its imaginary input plane. */
    method AppendChannel(i: nat)
      requires ChannelListsAre(i)
      modifies this`channels, this`channelsDouble, this`channelsDoubleComplexComponents,
        this`channelsComplexImages, this`channelsComplexSpectrums, this`channelsComplexSpectrumComponents,
        this`channelsSpectrumMagnitude, this`channelsSpectrumLogMagnitude, this`channelsSpectrumLogMagnitudeDisplay
      ensures ChannelListsAre(i + 1)
    {
      LayoutsSnoc(i, dftSize);
      channels := channels + [Mat(dftSize, CV_8UC1, Uninitialised)];
      channelsDouble := channelsDouble + [Mat(dftSize, CV_64FC1, Uninitialised)];
      channelsDoubleComplexComponents := channelsDoubleComplexComponents + [[]];
      channelsComplexImages := channelsComplexImages + [Mat(dftSize, CV_64FC2, Uninitialised)];
      channelsComplexSpectrums := channelsComplexSpectrums + [Mat(dftSize, CV_64FC2, Uninitialised)];
      channelsComplexSpectrumComponents := channelsComplexSpectrumComponents + [[]];
      channelsSpectrumMagnitude := channelsSpectrumMagnitude + [Mat(dftSize, CV_64FC1, Uninitialised)];
      channelsSpectrumLogMagnitude := channelsSpectrumLogMagnitude + [Mat(dftSize, CV_64FC1, Uninitialised)];
      channelsSpectrumLogMagnitudeDisplay := channelsSpectrumLogMagnitudeDisplay + [Mat(dftSize, CV_8UC1, Uninitialised)];

      // complex channels
      ghost var inputs, spectrums := ComplexInputPairs(i, dftSize), SpectrumPairs(i, dftSize);
      for j := 0 to 2
        modifies this`channelsDoubleComplexComponents, this`channelsComplexSpectrumComponents
        invariant channelsDoubleComplexComponents == inputs + [Planes(j, dftSize, CV_64FC1)]
        invariant channelsComplexSpectrumComponents == spectrums + [Planes(j, dftSize, CV_64FC1)]
      {
        LayoutsSnoc(j, dftSize);
        channelsDoubleComplexComponents := channelsDoubleComplexComponents[i :=
          channelsDoubleComplexComponents[i] + [Mat(dftSize, CV_64FC1, Uninitialised)]];
        channelsComplexSpectrumComponents := channelsComplexSpectrumComponents[i :=
          channelsComplexSpectrumComponents[i] + [Mat(dftSize, CV_64FC1, Uninitialised)]];
      }

      assert Planes(2, dftSize, CV_64FC1) == SpectrumPair(dftSize);
      assert Planes(2, dftSize, CV_64FC1)[1 := Mat(dftSize, CV_64FC1, Filled(0.0))] == ZeroImaginaryPair(dftSize);

      // fill the imaginary plane of the complex input with 0
      channelsDoubleComplexComponents := channelsDoubleComplexComponents[i :=
        channelsDoubleComplexComponents[i][1 := Mat(dftSize, CV_64FC1, Filled(0.0))]];
      assert channelsDoubleComplexComponents == inputs + [ZeroImaginaryPair(dftSize)];
      assert channelsComplexSpectrumComponents == spectrums + [SpectrumPair(dftSize)];
    }

    /** Releases every per-channel buffer, empties every per-channel list and
        releases the spectrum image and the square frame. Geometry, log scale
        factor and the base part are kept. */
    method Cleanup()
      requires Valid()
      modifies this
      ensures BuffersReleased() && GeometryValid()
      ensures inFrameSquare == Empty && spectrumMagnitudeImage == Empty
      ensures logScaleFactor == old(logScaleFactor)
      ensures dftSize == old(dftSize)
    {
      ReleaseChannels(processor.nbChannels);

      channelsSpectrumLogMagnitudeDisplay := [];
      channelsSpectrumLogMagnitude := [];
      channelsSpectrumMagnitude := [];
      channelsComplexSpectrumComponents := [];
      channelsComplexSpectrums := [];
      channelsComplexImages := [];
      channelsDoubleComplexComponents := [];
      channelsDouble := [];
      channels := [];

      spectrumMagnitudeImage := Empty;
      inFrameSquare := Empty;
    }

    /** The per-channel loop of cleanup: releases the buffers of every
        channel, keeping one (released) entry per channel in each list. */
    method ReleaseChannels(n: nat)
      requires ChannelListsHaveLength(n)
      requires forall k :: 0 <= k < n ==> |channelsDoubleComplexComponents[k]| == 2
      requires forall k :: 0 <= k < n ==> |channelsComplexSpectrumComponents[k]| == 2
      modifies this`channels, this`channelsDouble, this`channelsDoubleComplexComponents,
        this`channelsComplexImages, this`channelsComplexSpectrums, this`channelsComplexSpectrumComponents,
        this`channelsSpectrumMagnitude, this`channelsSpectrumLogMagnitude, this`channelsSpectrumLogMagnitudeDisplay
      ensures ChannelListsHaveLength(n)
      ensures forall k :: 0 <= k < n ==> channels[k] == channelsDouble[k] == channelsComplexImages[k] == Empty
      ensures forall k :: 0 <= k < n ==> channelsComplexSpectrums[k] == channelsSpectrumMagnitude[k] == Empty
      ensures forall k :: 0 <= k < n ==> channelsSpectrumLogMagnitude[k] == channelsSpectrumLogMagnitudeDisplay[k] == Empty
      ensures forall k :: 0 <= k < n ==> channelsDoubleComplexComponents[k] == channelsComplexSpectrumComponents[k] == []
    {
      for i := 0 to n
        invariant ChannelListsHaveLength(n)
        invariant forall k :: i <= k < n ==> |channelsDoubleComplexComponents[k]| == 2
        invariant forall k :: i <= k < n ==> |channelsComplexSpectrumComponents[k]| == 2
        invariant forall k :: 0 <= k < i ==> channels[k] == channelsDouble[k] == channelsComplexImages[k] == Empty
        invariant forall k :: 0 <= k < i ==> channelsComplexSpectrums[k] == channelsSpectrumMagnitude[k] == Empty
        invariant forall k :: 0 <= k < i ==> channelsSpectrumLogMagnitude[k] == channelsSpectrumLogMagnitudeDisplay[k] == Empty
        invariant forall k :: 0 <= k < i ==> channelsDoubleComplexComponents[k] == channelsComplexSpectrumComponents[k] == []
      {
        ReleaseChannel(i, n);
      }
    }

    /** Every per-channel list has `n` entries. */
    ghost predicate ChannelListsHaveLength(n: nat)
      reads this`channels, this`channelsDouble, this`channelsDoubleComplexComponents,
        this`channelsComplexImages, this`channelsComplexSpectrums, this`channelsComplexSpectrumComponents,
        this`channelsSpectrumMagnitude, this`channelsSpectrumLogMagnitude, this`channelsSpectrumLogMagnitudeDisplay
    {
      && |channels| == |channelsDouble| == |channelsDoubleComplexComponents| == n
      && |channelsComplexImages| == |channelsComplexSpectrums| == |channelsComplexSpectrumComponents| == n
      && |channelsSpectrumMagnitude| == |channelsSpectrumLogMagnitude| == |channelsSpectrumLogMagnitudeDisplay| == n
    }

    /** One iteration of the cleanup loop: releases the buffers of channel
        `i` and empties its complex lists; other channels are untouched. */
    method ReleaseChannel(i: nat, n: nat)
      requires i < n && ChannelListsHaveLength(n)
      requires |channelsDoubleComplexComponents[i]| == 2 && |channelsComplexSpectrumComponents[i]| == 2
      modifies this`channels, this`channelsDouble, this`channelsDoubleComplexComponents,
        this`channelsComplexImages, this`channelsComplexSpectrums, this`channelsComplexSpectrumComponents,
        this`channelsSpectrumMagnitude, this`channelsSpectrumLogMagnitude, this`channelsSpectrumLogMagnitudeDisplay
      ensures ChannelListsHaveLength(n)
      ensures channels == old(channels)[i := Empty]
      ensures channelsDouble == old(channelsDouble)[i := Empty]
      ensures channelsComplexImages == old(channelsComplexImages)[i := Empty]
      ensures channelsComplexSpectrums == old(channelsComplexSpectrums)[i := Empty]
      ensures channelsSpectrumMagnitude == old(channelsSpectrumMagnitude)[i := Empty]
      ensures channelsSpectrumLogMagnitude == old(channelsSpectrumLogMagnitude)[i := Empty]
      ensures channelsSpectrumLogMagnitudeDisplay == old(channelsSpectrumLogMagnitudeDisplay)[i := Empty]
      ensures channelsDoubleComplexComponents == old(channelsDoubleComplexComponents)[i := []]
      ensures channelsComplexSpectrumComponents == old(channelsComplexSpectrumComponents)[i := []]
    {
      // complex channels
      for j := 0 to 2
        modifies this`channelsDoubleComplexComponents, this`channelsComplexSpectrumComponents
        invariant |channelsDoubleComplexComponents| == |channelsComplexSpectrumComponents| == n
        invariant |channelsDoubleComplexComponents[i]| == |channelsComplexSpectrumComponents[i]| == 2
        invariant forall k :: 0 <= k < n && k != i ==>
          channelsDoubleComplexComponents[k] == old(channelsDoubleComplexComponents[k])
        invariant forall k :: 0 <= k < n && k != i ==>
          channelsComplexSpectrumComponents[k] == old(channelsComplexSpectrumComponents[k])
      {
        channelsComplexSpectrumComponents := channelsComplexSpectrumComponents[i :=
          channelsComplexSpectrumComponents[i][j := Empty]];
        channelsDoubleComplexComponents := channelsDoubleComplexComponents[i :=
          channelsDoubleComplexComponents[i][j := Empty]];
      }

      channelsSpectrumLogMagnitudeDisplay := channelsSpectrumLogMagnitudeDisplay[i := Empty];
      channelsSpectrumLogMagnitude := channelsSpectrumLogMagnitude[i := Empty];
      channelsSpectrumMagnitude := channelsSpectrumMagnitude[i := Empty];
      channelsComplexSpectrumComponents := channelsComplexSpectrumComponents[i := []];
      channelsComplexSpectrums := channelsComplexSpectrums[i := Empty];
      channelsComplexImages := channelsComplexImages[i := Empty];
      channelsDoubleComplexComponents := channelsDoubleComplexComponents[i := []];
      channelsDouble := channelsDouble[i := Empty];
      channels := channels[i := Empty];
    }

    /** A new source image: a null one is refused with NULL_IMAGE and
        changes nothing; otherwise the buffers of the old geometry are
        released and a full setup is done for the new source. */
    method SetSourceImage(image: Option<Source>) returns (r: Outcome)
      requires Valid()
      modifies this, processor
      ensures Valid()
      ensures image.None? ==> r == Fail(NullImage) && unchanged(this) && unchanged(processor)
      ensures image.Some? ==> r == Pass && processor.sourceImage == image.value
      ensures image.Some? ==> inFrameSquare == Mat(dftSize, processor.imageType, Uninitialised)
      ensures logScaleFactor == old(logScaleFactor)
      ensures processor.images == old(processor.images)
    {
      match image
      case None =>
        r := Fail(NullImage);
      case Some(img) =>
        Cleanup();
        Setup(img, true);
        r := Pass;
    }

    /** The crop at the start of update(): the centred square range of the
        source, resampled to dftSize into the square frame. The per-channel
        transform steps that follow are not written in the processor. */
    method Update()
      requires Valid()
      modifies this`inFrameSquare
      ensures Valid()
      ensures inFrameSquare == Mat(dftSize, processor.imageType,
        Resampled(CropOf(processor.sourceImage.rows, processor.sourceImage.cols)))
    {
      var source := processor.sourceImage;
      var crop;
      if source.cols > source.rows {
        // wider than high: centred column range
        crop := ColRange(borderSize, borderSize + minSize);
      } else {
        // higher than wide: centred row range
        crop := RowRange(borderSize, borderSize + minSize);
      }
      // resize with INTER_AREA of the crop to dftSize, keeping the source type
      inFrameSquare := Mat(dftSize, processor.imageType, Resampled(crop));
    }

    /** The optimal DFT size for the current source image. */
    function GetOptimalDftSize(): (n: int)
      reads this, processor
      requires Valid()
      ensures n == optimalSize(Plan(processor.sourceImage.rows, processor.sourceImage.cols).minSize)
      ensures dftSize == Size(n, n)
    {
      optimalDFTSize
    }

    /** The log scale factor in effect, always within the bounds. */
    function GetLogScaleFactor(): (v: real)
      reads this, processor
      requires Valid()
      ensures MinLogScaleFactor <= v <= MaxLogScaleFactor
    {
      logScaleFactor
    }

    /** Stores the requested factor, saturated into the bounds. */
    method SetLogScaleFactor(v: real)
      requires Valid()
      modifies this`logScaleFactor
      ensures Valid()
      ensures v > MaxLogScaleFactor ==> logScaleFactor == MaxLogScaleFactor
      ensures v < MinLogScaleFactor ==> logScaleFactor == MinLogScaleFactor
      ensures MinLogScaleFactor <= v <= MaxLogScaleFactor ==> logScaleFactor == v
      ensures logScaleFactor == ClampLogScaleFactor(v)
    {
      if v > MaxLogScaleFactor {
        logScaleFactor := MaxLogScaleFactor;
      } else if v < MinLogScaleFactor {
        logScaleFactor := MinLogScaleFactor;
      } else {
        logScaleFactor := v;
      }
    }
  }
}

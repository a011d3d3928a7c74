/** The image processor base class: a borrowed source image with its cached
    channel count, size and type, and a registry of named images. */
module Processor {
  import opened Images

  /** Index of channels in OpenCV BGR or gray images. */
  datatype Channel = Blue | Gray | Green | Red

  /** NBCHANNELS: the number of channels of a BGR image. */
  const NbChannels: nat := 3

  /** The BGR layout: blue (or gray) first, then green, then red. */
  function ChannelIndex(c: Channel): (k: nat)
    ensures k < NbChannels
    ensures k == 0 <==> (c == Blue || c == Gray)
    ensures k == 1 <==> c == Green
    ensures k == 2 <==> c == Red
  {
    match c
    case Blue => 0
    case Gray => 0
    case Green => 1
    case Red => 2
  }

  class CvProcessor {
    /** The source image, borrowed, never null once constructed. */
    var sourceImage: Source
    /** Cached attributes of the source image. */
    var nbChannels: nat
    var size: Size
    var imageType: int
    /** Additional images registered by name. */
    var images: map<string, ImageRef>

    /** The cached attributes agree with the current source image. */
    ghost predicate Valid()
      reads this
    {
      && nbChannels == sourceImage.nbChannels
      && size == sourceImage.SizeOf()
      && imageType == sourceImage.matType
    }

    /** A processor needs a source image: a null one is excluded by the type. */
    constructor (sourceImage: Source)
      ensures Valid() && this.sourceImage == sourceImage
      ensures images == map[]
    {
      this.sourceImage := sourceImage;
      nbChannels := sourceImage.nbChannels;
      size := sourceImage.SizeOf();
      imageType := sourceImage.matType;
      images := map[];
    }

    /** The base part of a full setup: install the source and resynchronise
        the cached attributes. */
    method Setup(sourceImage: Source)
      modifies this
      ensures Valid() && this.sourceImage == sourceImage
      ensures images == old(images)
    {
      this.sourceImage := sourceImage;
      nbChannels := sourceImage.nbChannels;
      size := sourceImage.SizeOf();
      imageType := sourceImage.matType;
    }

    /** Changes the source image; `None` stands for a null pointer, which is
        refused with NULL_IMAGE and changes nothing. */
    method SetSourceImage(image: Option<Source>) returns (r: Outcome)
      modifies this
      ensures image.None? ==> r == Fail(NullImage) && unchanged(this)
      ensures image.Some? ==> r == Pass && Valid() && sourceImage == image.value
      ensures images == old(images)
    {
      match image
      case None =>
        r := Fail(NullImage);
      case Some(img) =>
        Setup(img);
        r := Pass;
    }

    /** Registers `image` under `name` unless that name is already taken; an
        existing entry is never replaced. */
    method AddImage(name: string, image: ImageRef) returns (added: bool)
      modifies this`images
      ensures added <==> name !in old(images)
      ensures GetImage(name) == Ok(if added then image else old(images)[name])
      ensures forall other :: other != name ==> GetImage(other) == old(GetImage(other))
      ensures images.Keys == old(images.Keys) + {name}
    {
      added := name !in images;
      if added {
        images := images[name := image];
      }
    }

    /** The image registered under `name`, or INVALID_NAME. */
    function GetImage(name: string): (r: Result<ImageRef>)
      reads this
      ensures r.Ok? <==> name in images
      ensures r.Ok? ==> images[name] == r.value
      ensures r.Err? ==> r.error == InvalidName
    {
      if name in images then Ok(images[name]) else Err(InvalidName)
    }

    /** The pointer registered under `name`: the same rule as GetImage. */
    function GetImagePtr(name: string): (r: Result<ImageRef>)
      reads this
      ensures r == GetImage(name)
    {
      GetImage(name)
    }

    /** The number of channels of the current source image. */
    function GetNbChannels(): (n: nat)
      reads this
      requires Valid()
      ensures n == sourceImage.nbChannels
    {
      nbChannels
    }

    /** The OpenCV type of the current source image. */
    function GetType(): (t: int)
      reads this
      requires Valid()
      ensures t == sourceImage.matType
    {
      imageType
    }
  }
}

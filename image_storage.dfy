/**
 * Vulkan::ImageStorage: the layout bookkeeping of one Vulkan image and the
 * VkImageCreateInfo it is created from. Device calls (image creation and
 * the pipeline barrier command itself) are outside the model: the created
 * image is a parameter, and recording a barrier appends it to the command
 * buffer's log.
 */
module Vulkan {

  newtype uint32 = x: int | 0 <= x < 0x1_0000_0000

  /** The vk::Format values this model distinguishes. */
  datatype Format =
    | UndefinedFormat
    | R8G8B8A8Unorm
    | B8G8R8A8Unorm
    | G8B8G8R8422Unorm
    | G8B8R83Plane420Unorm
    | G8B8R82Plane420Unorm
    | G8B8R83Plane422Unorm
    | G8B8R82Plane422Unorm

  /**
   * The multi-planar formats among them as the Vulkan specification classes
   * them: those stored as two or three separate planes.
   */
  predicate VulkanMultiPlanar(f: Format) {
    f.G8B8R83Plane420Unorm? || f.G8B8R82Plane420Unorm? || f.G8B8R83Plane422Unorm? || f.G8B8R82Plane422Unorm?
  }

  /** vk::ImageLayout, as an abstract enumeration. */
  datatype ImageLayout =
    | UndefinedLayout
    | General
    | ColorAttachmentOptimal
    | ShaderReadOnlyOptimal
    | TransferSrcOptimal
    | TransferDstOptimal
    | Preinitialized
    | PresentSrc

  datatype Extent2D = Extent2D(width: uint32, height: uint32)
  datatype Extent3D = Extent3D(width: uint32, height: uint32, depth: uint32)
  datatype ImageType = Type1D | Type2D | Type3D
  datatype SharingMode = Exclusive | Concurrent
  datatype ImageCreateFlag = Disjoint | MutableFormat | CubeCompatible
  datatype ImageAspect = Color | Depth | Stencil
  datatype ImageUsage = TransferSrc | TransferDst | Sampled | Storage | ColorAttachment

  /**
   * The formats whose chroma is halved horizontally (every 4:2:x format) and
   * those whose chroma is also halved vertically (the 4:2:0 ones).
   */
  predicate WidthSubsampled(f: Format) {
    f.G8B8G8R8422Unorm? || HeightSubsampled(f) || f.G8B8R83Plane422Unorm? || f.G8B8R82Plane422Unorm?
  }

  predicate HeightSubsampled(f: Format) {
    f.G8B8R83Plane420Unorm? || f.G8B8R82Plane420Unorm?
  }

  /**
   * The fields of vk::ImageCreateInfo this model keeps; `samples` is the
   * sample count and an empty `usage` is the flag value 0.
   */
  datatype ImageCreateInfo = ImageCreateInfo(
    flags: set<ImageCreateFlag>,
    imageType: ImageType,
    format: Format,
    extent: Extent3D,
    mipLevels: uint32,
    arrayLayers: uint32,
    samples: uint32,
    usage: set<ImageUsage>,
    sharingMode: SharingMode,
    initialLayout: ImageLayout)

  /** A default-constructed vk::ImageCreateInfo. */
  function DefaultImageCreateInfo(): ImageCreateInfo {
    ImageCreateInfo({}, Type1D, UndefinedFormat, Extent3D(0, 0, 0), 0, 0, 1, {}, Exclusive, UndefinedLayout)
  }

  /**
   * These valid-usage rules of VkImageCreateInfo in the Vulkan
   * specification: a non-empty extent, depth 1 for a 2D image, at least one
   * mip level and one array layer, an even width for a format with
   * horizontally subsampled chroma and an even height for one with
   * vertically subsampled chroma, and the disjoint flag only on a
   * multi-planar format. The rule that `usage` is non-zero is not among them.
   */
  predicate ValidImageCreateInfo(info: ImageCreateInfo) {
    && info.extent.width > 0 && info.extent.height > 0 && info.extent.depth > 0
    && (info.imageType == Type2D ==> info.extent.depth == 1)
    && info.mipLevels > 0
    && info.arrayLayers > 0
    && (WidthSubsampled(info.format) ==> info.extent.width % 2 == 0)
    && (HeightSubsampled(info.format) ==> info.extent.height % 2 == 0)
    && (Disjoint in info.flags ==> VulkanMultiPlanar(info.format))
  }

  /** vk::ImageSubresourceRange. */
  datatype SubresourceRange = SubresourceRange(
    aspect: ImageAspect, baseMipLevel: uint32, levelCount: uint32, baseArrayLayer: uint32, layerCount: uint32)

  /** The vk::Image handle an ImageStorage owns; NullImage before SetUp. */
  datatype ImageHandle = NullImage | ImageHandle(id: nat)

  /** The layout transition and target of a vk::ImageMemoryBarrier. */
  datatype ImageMemoryBarrier = ImageMemoryBarrier(
    oldLayout: ImageLayout, newLayout: ImageLayout, image: ImageHandle, subresourceRange: SubresourceRange)

  /** A vk::CommandBuffer, seen as the image barriers recorded into it. */
  class CommandBuffer {
    var barriers: seq<ImageMemoryBarrier>

    constructor()
      ensures barriers == []
    {
      barriers := [];
    }
  }

  /** One layout change: from the layout the image was in to the one requested. */
  datatype Transition = Transition(from: ImageLayout, to: ImageLayout)

  /** The layout after `requests`, started from `start`. */
  function FinalLayout(start: ImageLayout, requests: seq<ImageLayout>): ImageLayout {
    if requests == [] then start else requests[|requests| - 1]
  }

  /**
   * The transitions a sequence of layout requests records: request i goes
   * from the layout request i - 1 left (the start layout for the first) to
   * the layout it asks for.
   */
  function Transitions(start: ImageLayout, requests: seq<ImageLayout>): (ts: seq<Transition>)
    ensures |ts| == |requests|
    ensures ts != [] ==> ts[0].from == start
    ensures forall i :: 0 < i < |ts| ==> ts[i].from == requests[i - 1]
    ensures forall i :: 0 <= i < |ts| ==> ts[i].to == requests[i]
    decreases |requests|
  {
    if requests == [] then []
    else [Transition(start, requests[0])] + Transitions(requests[0], requests[1..])
  }

  /**
   * The recorded transitions form a chain: the first leaves the start layout,
   * each next one leaves the layout the previous one entered, and the last
   * one enters the final layout.
   */
  lemma TransitionsChain(start: ImageLayout, requests: seq<ImageLayout>)
    ensures var ts := Transitions(start, requests);
      && (ts != [] ==> ts[0].from == start && ts[|ts| - 1].to == FinalLayout(start, requests))
      && (forall i :: 0 < i < |ts| ==> ts[i].from == ts[i - 1].to)
  {
  }

  /** One more request adds exactly one transition, from the layout the earlier ones left. */
  lemma TransitionsSnoc(start: ImageLayout, requests: seq<ImageLayout>, next: ImageLayout)
    ensures Transitions(start, requests + [next]) ==
      Transitions(start, requests) + [Transition(FinalLayout(start, requests), next)]
  {
  }

  class ImageStorage {
    var format: Format
    var extent: Extent2D
    var layout: ImageLayout
    var image: ImageHandle

    /** The layout SetUp left, and the layouts SetLayout was asked for since. */
    ghost var setUpLayout: ImageLayout
    ghost var requested: seq<ImageLayout>

    /** `layout` is the last layout requested since SetUp, or SetUp's own. */
    ghost predicate Valid()
      reads this
    {
      layout == FinalLayout(setUpLayout, requested)
    }

    constructor(format: Format, extent: Extent2D, layout: ImageLayout)
      ensures Valid()
      ensures this.format == format && this.extent == extent && this.layout == layout
      ensures image == NullImage && requested == []
    {
      this.format := format;
      this.extent := extent;
      this.layout := layout;
      image := NullImage;
      setUpLayout := layout;
      requested := [];
    }

    /**
     * Adopts the create-info's initial layout and the image the device
     * created from it; the transition history starts again from there.
     */
    method SetUp(info: ImageCreateInfo, created: ImageHandle)
      modifies this
      ensures Valid()
      ensures layout == info.initialLayout && image == created
      ensures setUpLayout == info.initialLayout && requested == []
      ensures format == old(format) && extent == old(extent)
    {
      layout := info.initialLayout;
      image := created;
      setUpLayout := layout;
      requested := [];
    }

    /** Releases nothing: the image is freed by its owner, not here. */
    method TearDown()
      ensures unchanged(this)
    {
    }

    /**
     * Records into `commandBuffer` one barrier that moves the whole colour
     * image (mip 0, layer 0) from the current layout to `newLayout`, then
     * tracks `newLayout` as the current layout.
     */
    method SetLayout(commandBuffer: CommandBuffer, newLayout: ImageLayout)
      requires Valid()
      modifies this, commandBuffer
      ensures Valid()
      ensures layout == newLayout
      ensures commandBuffer.barriers ==
        old(commandBuffer.barriers) + [ImageMemoryBarrier(old(layout), newLayout, image, ColorSubresourceRange())]
      ensures requested == old(requested) + [newLayout] && setUpLayout == old(setUpLayout)
      ensures Transitions(setUpLayout, requested) ==
        old(Transitions(setUpLayout, requested)) + [Transition(old(layout), newLayout)]
      ensures format == old(format) && extent == old(extent) && image == old(image)
    {
      var barrier := ImageMemoryBarrier(layout, newLayout, image, ColorSubresourceRange());
      commandBuffer.barriers := commandBuffer.barriers + [barrier];
      layout := newLayout;
      requested := requested + [newLayout];
      TransitionsSnoc(setUpLayout, old(requested), newLayout);
    }

    /** True exactly for the two-plane 4:2:0 8-bit format; never for a single-plane one. */
    function IsMultiPlanar(): (r: bool)
      reads this
      ensures r <==> format == G8B8R82Plane420Unorm
      ensures r ==> VulkanMultiPlanar(format)
    {
      match format
      case G8B8R82Plane420Unorm => true
      case _ => false
    }

    /**
     * A single-sample, single-level, single-layer, exclusively shared 2D image
     * of the storage's format, extent and current layout; disjoint exactly
     * when the format is multi-planar, the default (no) flags otherwise. The
     * usage is left 0 for the caller to set. With a non-empty extent, even
     * where the format subsamples its chroma, it meets the rules
     * ValidImageCreateInfo lists.
     */
    function CreateImageCreateInfo(): (info: ImageCreateInfo)
      reads this
      ensures info.imageType == Type2D && info.extent == Extent3D(extent.width, extent.height, 1)
      ensures info.mipLevels == 1 && info.arrayLayers == 1 && info.samples == 1 && info.sharingMode == Exclusive
      ensures info.format == format && info.initialLayout == layout && info.usage == {}
      ensures info.flags == if IsMultiPlanar() then {Disjoint} else {}
      ensures && extent.width > 0 && extent.height > 0
              && (WidthSubsampled(format) ==> extent.width % 2 == 0)
              && (HeightSubsampled(format) ==> extent.height % 2 == 0)
              ==> ValidImageCreateInfo(info)
    {
      var info := DefaultImageCreateInfo().(
        imageType := Type2D,
        extent := Extent3D(extent.width, extent.height, 1),
        mipLevels := 1,
        arrayLayers := 1,
        format := format,
        initialLayout := layout,
        sharingMode := Exclusive,
        samples := 1);
      if IsMultiPlanar() then info.(flags := {Disjoint}) else info
    }
  }

  /** The colour aspect of mip level 0 and array layer 0, one of each. */
  function ColorSubresourceRange(): (r: SubresourceRange)
    ensures r.aspect == Color && r.baseMipLevel == 0 && r.levelCount == 1
    ensures r.baseArrayLayer == 0 && r.layerCount == 1
  {
    SubresourceRange(Color, 0, 1, 0, 1)
  }

  /** IsMultiPlanar misses the three-plane and 4:2:2 formats Vulkan also counts as multi-planar. */
  lemma IsMultiPlanarIncomplete(storage: ImageStorage)
    requires storage.format == G8B8R83Plane420Unorm
    ensures VulkanMultiPlanar(storage.format) && !storage.IsMultiPlanar()
  {
  }
}

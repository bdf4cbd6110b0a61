/**
 * The pure computations behind the format ioctls and the videobuf2
 * queue_setup callback: the reported geometry of a frame, the buffer-count
 * clamp, and the index checks of the enumeration ioctls.
 */
module Formats {
  import opened V4l2

  /** Bytes in one frame of the packed 16-bit format. */
  function FrameSize(width: nat, height: nat): nat
  {
    width * height * 2
  }

  /** vidioc_g_fmt_vid_cap: the format the device currently delivers. */
  function GetFormat(width: nat, height: nat): (f: PixFormat)
    ensures f.width == width && f.height == height && f.pixelformat == PIX_FMT_UYVY
    ensures f.sizeimage == FrameSize(width, height)
  {
    var bytesperline := width * 2;
    PixFormat(width, height, FIELD_INTERLACED, PIX_FMT_UYVY, bytesperline,
              height * bytesperline, COLORSPACE_SMPTE170M)
  }

  /** What the driver hands back from a format ioctl: the return code and the record as it left it. */
  datatype FmtReply = FmtReply(rc: int, fmt: PixFormat)

  /**
   * vidioc_try_fmt_vid_cap: any pixel format but UYVY is refused and the record
   * is left alone; otherwise the size requested is ignored and the current
   * geometry is reported.
   */
  function TryFormat(f: PixFormat, width: nat, height: nat): (r: FmtReply)
    ensures r.rc == 0 <==> f.pixelformat == PIX_FMT_UYVY
    ensures r.rc != 0 ==> r.rc == -EINVAL && r.fmt == f
    ensures r.rc == 0 ==> r.fmt == GetFormat(width, height)
  {
    if f.pixelformat != PIX_FMT_UYVY then
      FmtReply(-EINVAL, f)
    else
      var bytesperline := width * 2;
      FmtReply(0, f.(width := width, height := height, field := FIELD_INTERLACED,
                     bytesperline := bytesperline, sizeimage := height * bytesperline,
                     colorspace := COLORSPACE_SMPTE170M))
  }

  /** Trying a format the driver has just returned gives the same answer again. */
  lemma TryFormatIdempotent(f: PixFormat, width: nat, height: nat)
    ensures var r := TryFormat(f, width, height);
            TryFormat(r.fmt, width, height) == r
  {
  }

  /** vidioc_enum_fmt_vid_cap: index 0 is the one format, every other index is refused. */
  function EnumFormat(index: nat): (r: Option<nat>)
    ensures r.Some? <==> index == 0
    ensures r.Some? ==> r.value == GetFormat(0, 0).pixelformat
  {
    if index != 0 then None else Some(PIX_FMT_UYVY)
  }

  /** The formats try_fmt accepts are exactly the enumerated one. */
  lemma EnumeratedFormatsAreAccepted(f: PixFormat, width: nat, height: nat)
    ensures TryFormat(f, width, height).rc == 0 <==> Some(f.pixelformat) == EnumFormat(0)
  {
  }

  /** clamp_t: the value brought into [lo, hi]. */
  function Clamp(v: nat, lo: nat, hi: nat): nat
    requires lo <= hi
  {
    if v < lo then lo else if v > hi then hi else v
  }

  /** The answer of queue_setup: buffer count, plane count and the size of plane 0. */
  datatype Setup = Setup(nbuffers: nat, nplanes: nat, size: nat)

  /**
   * queue_setup: the requested buffer count clamped into the driver's bounds,
   * one plane, holding one whole frame of the current geometry.
   */
  function QueueSetup(requested: nat, minBuffers: nat, maxBuffers: nat, width: nat, height: nat): (s: Setup)
    requires minBuffers <= maxBuffers
    ensures minBuffers <= s.nbuffers <= maxBuffers
    ensures minBuffers <= requested <= maxBuffers ==> s.nbuffers == requested
    ensures requested < minBuffers ==> s.nbuffers == minBuffers
    ensures requested > maxBuffers ==> s.nbuffers == maxBuffers
    ensures s.nplanes == 1
    ensures s.size == GetFormat(width, height).sizeimage
  {
    Setup(Clamp(requested, minBuffers, maxBuffers), 1, FrameSize(width, height))
  }

  /** vidioc_enum_input: every index up to and including the largest input exists. */
  function EnumInput(index: nat, maxInput: nat): (rc: int)
    ensures rc == 0 <==> index <= maxInput
    ensures rc != 0 ==> rc == -EINVAL
  {
    if index > maxInput then -EINVAL else 0
  }
}

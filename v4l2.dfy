/**
 * The pieces of the Video4Linux2 interface that the STK1160 capture driver
 * uses: the error numbers it returns (negated), the one pixel format it
 * offers, and the pixel-format record that the format ioctls fill in.
 */
module V4l2 {

  /** Linux error numbers (asm-generic/errno-base.h); ioctls return their negation. */
  const EBUSY: int := 16
  const ENODEV: int := 19
  const EINVAL: int := 22

  /** v4l2_fourcc('U', 'Y', 'V', 'Y'): packed 16-bit 4:2:2, the driver's only format. */
  const PIX_FMT_UYVY: nat := 0x5956_5955

  /** V4L2_FIELD_INTERLACED and V4L2_COLORSPACE_SMPTE170M. */
  const FIELD_INTERLACED: nat := 4
  const COLORSPACE_SMPTE170M: nat := 1

  /** The members of struct v4l2_pix_format that the driver reads or writes. */
  datatype PixFormat = PixFormat(
    width: nat,
    height: nat,
    field: nat,
    pixelformat: nat,
    bytesperline: nat,
    sizeimage: nat,
    colorspace: nat)

  datatype Option<+T> = None | Some(value: T)
}

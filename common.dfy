/** Shared value types of the libcamera input plugin: the optional value, 32-bit unsigned
    quantities, the stream configuration the camera is asked for, and the `vdIn` record
    (common.h). */
module Common {

  datatype Option<T> = None | Some(value: T)

  const U32_MODULUS: int := 0x1_0000_0000

  /** A C `uint32_t`. */
  type U32 = x: int | 0 <= x < U32_MODULUS

  /** A non-negative result stored in a `uint32_t`: it wraps around modulo 2^32. */
  function Wrap32(x: nat): (r: U32)
    ensures x < U32_MODULUS ==> r == x
  {
    x % U32_MODULUS
  }

  /** What the camera was last asked to stream: the arguments of `configureStill` or
      `resetCamera` (the pixel format is always BGR888 and is not recorded). */
  datatype StreamConfig = StreamConfig(width: U32, height: U32, bufferCount: int, rotation: int)

  /** `struct vdIn`: the geometry of the frames handed to the encoder and the requested
      snapshot size. The frame pointer and the pixel format are not modelled. */
  datatype VideoIn = VideoIn(width: U32, height: U32, stride: U32, snapshotWidth: U32, snapshotHeight: U32)
}

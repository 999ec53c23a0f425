/**
 * The two data holders the adapter hands to the decryption module: the
 * decrypted block that receives the output of a decrypt call, and the video
 * frame that receives the output of a decrypt-and-decode call. Both are
 * objects whose setters overwrite fields in place; the frame also keeps two
 * fixed-size per-plane tables updated one entry at a time.
 */
module Media {
  import opened CdmTypes
  import opened VideoFrameSpec

  /** `CdmDecryptedBlock`: one buffer reference and one signed timestamp. */
  class CdmDecryptedBlock {
    var buffer: BufferRef
    var timestamp: int64

    /** A new block holds no buffer and timestamp 0. */
    constructor ()
      ensures DecryptedBuffer() == NullBuffer && Timestamp() == 0
    {
      buffer := NullBuffer;
      timestamp := 0;
    }

    function DecryptedBuffer(): BufferRef
      reads this
    {
      buffer
    }

    function Timestamp(): int64
      reads this
    {
      timestamp
    }

    /** The getter returns exactly the reference stored; the timestamp is untouched. */
    method SetDecryptedBuffer(b: BufferRef)
      modifies this
      ensures DecryptedBuffer() == b
      ensures Timestamp() == old(Timestamp())
    {
      buffer := b;
    }

    /** The getter returns exactly the timestamp stored; the buffer reference is untouched. */
    method SetTimestamp(t: int64)
      modifies this
      ensures Timestamp() == t
      ensures DecryptedBuffer() == old(DecryptedBuffer())
    {
      timestamp := t;
    }
  }

  /**
   * `CdmVideoFrame`: format, size, frame buffer, per-plane offsets and
   * strides, presentation timestamp (kept unsigned) and colour space. The
   * two tables are arrays of kMaxPlanes entries that belong to the frame.
   */
  class CdmVideoFrame {
    var format: VideoFormat
    var size: Size
    var frameBuffer: BufferRef
    const planeOffsets: array<uint32>
    const strides: array<uint32>
    var pts: uint64
    /** Public in the source: callers may also read it directly. */
    var colorSpace: ColorSpace

    /** The tables have one entry per plane and are two distinct arrays. */
    ghost predicate Valid()
      reads this
    {
      planeOffsets.Length == kMaxPlanes && strides.Length == kMaxPlanes && planeOffsets != strides
    }

    /** The frame's fields as a value of the specification. */
    ghost function State(): (s: FrameState)
      reads this, planeOffsets, strides
      requires Valid()
      ensures WellFormed(s)
    {
      FrameState(format, size, frameBuffer, planeOffsets[..], strides[..], pts, colorSpace)
    }

    /**
     * A new frame holds no frame buffer and the unspecified colour space.
     * Format, size, both tables and the timestamp are left uninitialised,
     * so nothing is promised about them.
     */
    constructor ()
      ensures Valid() && fresh(planeOffsets) && fresh(strides)
      ensures FrameBuffer() == NullBuffer && colorSpace == UnspecifiedColorSpace
      ensures Initial(State())
    {
      frameBuffer := NullBuffer;
      colorSpace := UnspecifiedColorSpace;
      planeOffsets := new uint32[kMaxPlanes];
      strides := new uint32[kMaxPlanes];
    }

    function Format(): VideoFormat
      reads this
    {
      format
    }

    function Size(): CdmTypes.Size
      reads this
    {
      size
    }

    function FrameBuffer(): BufferRef
      reads this
    {
      frameBuffer
    }

    function PlaneOffset(plane: nat): uint32
      reads this, planeOffsets
      requires Valid() && plane < kMaxPlanes
    {
      planeOffsets[plane]
    }

    function Stride(plane: nat): uint32
      reads this, strides
      requires Valid() && plane < kMaxPlanes
    {
      strides[plane]
    }

    /** The signed timestamp whose 64-bit pattern is the stored unsigned field. */
    function Timestamp(): (t: int64)
      reads this
      ensures ToUint64(t) == pts
    {
      ToInt64(pts)
    }

    method SetFormat(f: VideoFormat)
      requires Valid()
      modifies this
      ensures Valid()
      ensures Format() == f
      ensures State() == Step(old(State()), WriteFormat(f))
    {
      format := f;
    }

    method SetSize(sz: CdmTypes.Size)
      requires Valid()
      modifies this
      ensures Valid()
      ensures Size() == sz
      ensures State() == Step(old(State()), WriteSize(sz))
    {
      size := sz;
    }

    method SetFrameBuffer(b: BufferRef)
      requires Valid()
      modifies this
      ensures Valid()
      ensures FrameBuffer() == b
      ensures State() == Step(old(State()), WriteFrameBuffer(b))
    {
      frameBuffer := b;
    }

    /** Writes one entry of the offset table; the other planes and the stride table keep their values. */
    method SetPlaneOffset(plane: nat, offset: uint32)
      requires Valid() && plane < kMaxPlanes
      modifies planeOffsets
      ensures Valid()
      ensures PlaneOffset(plane) == offset
      ensures forall q :: 0 <= q < kMaxPlanes && q != plane ==> PlaneOffset(q) == old(PlaneOffset(q))
      ensures forall q :: 0 <= q < kMaxPlanes ==> Stride(q) == old(Stride(q))
      ensures State() == Step(old(State()), WritePlaneOffset(plane, offset))
    {
      planeOffsets[plane] := offset;
    }

    /** Writes one entry of the stride table; the other planes and the offset table keep their values. */
    method SetStride(plane: nat, stride: uint32)
      requires Valid() && plane < kMaxPlanes
      modifies strides
      ensures Valid()
      ensures Stride(plane) == stride
      ensures forall q :: 0 <= q < kMaxPlanes && q != plane ==> Stride(q) == old(Stride(q))
      ensures forall q :: 0 <= q < kMaxPlanes ==> PlaneOffset(q) == old(PlaneOffset(q))
      ensures State() == Step(old(State()), WriteStride(plane, stride))
    {
      strides[plane] := stride;
    }

    /** Stores the signed timestamp in the unsigned field; the getter gives back exactly `t`. */
    method SetTimestamp(t: int64)
      requires Valid()
      modifies this
      ensures Valid()
      ensures Timestamp() == t
      ensures State() == Step(old(State()), WriteTimestamp(t))
    {
      pts := ToUint64(t);
    }

    method SetColorSpace(cs: ColorSpace)
      requires Valid()
      modifies this
      ensures Valid()
      ensures colorSpace == cs
      ensures State() == Step(old(State()), WriteColorSpace(cs))
    {
      colorSpace := cs;
    }
  }
}

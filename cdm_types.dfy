/**
 * The value types of the content decryption module interface that the two
 * data holders of cdm_adapter.h store: fixed-width integers, opaque buffer
 * references, frame sizes, colour-space descriptors and the plane indices.
 * The types themselves are declared in content_decryption_module.h, which is
 * not part of this model; only the shape the holders rely on is kept here.
 */
module CdmTypes {

  newtype uint8 = x: int | 0 <= x < 0x100
  newtype int32 = x: int | -0x8000_0000 <= x < 0x8000_0000
  newtype uint32 = x: int | 0 <= x < 0x1_0000_0000
  newtype int64 = x: int | -0x8000_0000_0000_0000 <= x < 0x8000_0000_0000_0000
  newtype uint64 = x: int | 0 <= x < 0x1_0000_0000_0000_0000

  /** 2^64, the modulus of the two's-complement reinterpretation between int64 and uint64. */
  const TWO_TO_THE_64: int := 0x1_0000_0000_0000_0000

  /**
   * A `cdm::Buffer*` as the holders see it: either null or a reference to a
   * buffer owned elsewhere. The holders never look inside a buffer, so a
   * reference is an opaque token compared only by identity.
   */
  datatype BufferRef = NullBuffer | BufferAt(token: nat)

  /** `cdm::VideoFormat`: an enumeration with a 32-bit underlying type, stored and returned as is. */
  type VideoFormat = uint32

  /** `cdm::Size`: frame dimensions in pixels. */
  datatype Size = Size(width: int32, height: int32)

  /** `cdm::ColorRange`. */
  datatype ColorRange = Invalid | Limited | Full | Derived

  /**
   * `cdm::ColorSpace`: the colour primaries, transfer characteristics and
   * matrix coefficients code points of ISO/IEC 23001-8:2016, section 7, and
   * the sample range.
   */
  datatype ColorSpace = ColorSpace(primaryId: uint8, transferId: uint8, matrixId: uint8, range: ColorRange)

  /** Code point 2 of ISO/IEC 23001-8:2016, section 7: "Unspecified". */
  const UNSPECIFIED_CODE_POINT: uint8 := 2

  /** The colour space a video frame starts with: unspecified primaries, transfer and matrix, invalid range. */
  const UnspecifiedColorSpace: ColorSpace :=
    ColorSpace(UNSPECIFIED_CODE_POINT, UNSPECIFIED_CODE_POINT, UNSPECIFIED_CODE_POINT, Invalid)

  /** `cdm::VideoPlane`: kYPlane, kUPlane, kVPlane, and kMaxPlanes, the size of the per-plane tables. */
  const kYPlane: nat := 0
  const kUPlane: nat := 1
  const kVPlane: nat := 2
  const kMaxPlanes: nat := 3

  /**
   * The conversion C++ applies when an int64_t is stored into a uint64_t:
   * the same 64-bit pattern read as unsigned, i.e. the value modulo 2^64.
   */
  function ToUint64(t: int64): (u: uint64)
    ensures (u as int - t as int) % TWO_TO_THE_64 == 0
    ensures t >= 0 ==> u as int == t as int
    ensures t < 0 ==> u as int >= 0x8000_0000_0000_0000
  {
    if t < 0 then (t as int + TWO_TO_THE_64) as uint64 else t as uint64
  }

  /**
   * The conversion back when a uint64_t is returned as int64_t: the same
   * 64-bit pattern read in two's complement.
   */
  function ToInt64(u: uint64): (t: int64)
    ensures (u as int - t as int) % TWO_TO_THE_64 == 0
    ensures u as int < 0x8000_0000_0000_0000 ==> t as int == u as int
    ensures u as int >= 0x8000_0000_0000_0000 ==> t < 0
  {
    if u as int < 0x8000_0000_0000_0000 then u as int as int64 else (u as int - TWO_TO_THE_64) as int64
  }

  /** Storing a signed timestamp as unsigned and reading it back as signed gives it back, negatives included. */
  lemma Int64RoundTrip(t: int64)
    ensures ToInt64(ToUint64(t)) == t
  {
  }

  /** The reinterpretation is a bijection: every uint64 pattern comes from exactly one int64. */
  lemma Uint64RoundTrip(u: uint64)
    ensures ToUint64(ToInt64(u)) == u
  {
  }
}

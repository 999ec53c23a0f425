# Decrypted-block and video-frame holders of the CDM adapter

The CDM adapter of inputstream.adaptive loads a content decryption module
(CDM) and passes requests to it. When the CDM decrypts a sample, it fills a
`CdmDecryptedBlock`. When it decrypts and decodes a video frame, it fills a
`CdmVideoFrame`. Both are plain holders: setters overwrite fields in place
and getters read them back. This project models the two holders and proves
their contracts.

- `cdm_types.dfy` (module `CdmTypes`): the CDM interface value types the
  holders store. These are fixed-width integers, buffer references as opaque
  tokens, `Size`, `ColorSpace` with its "Unspecified" default (code point 2
  of ISO/IEC 23001-8:2016, section 7), and the plane indices with
  `kMaxPlanes`. The module also holds the two's-complement conversions
  between `int64` and `uint64`.
- `video_frame_spec.dfy` (module `VideoFrameSpec`): a video frame's state as
  a value. `Step` gives the effect of one setter call, `Read` the result of
  one getter call, and `Run` the effect of a sequence of setter calls. The
  lemmas show that a getter returns what the last setter of its slot stored,
  and that setters of different slots are independent.
- `cdm_adapter.dfy` (module `Media`): the two classes. Each setter is a
  method with a `modifies` clause. Its `ensures` gives the getter round-trip
  and the fields it leaves alone. For the frame, it also ties the new
  `State()` to `Step` applied to the old one. The per-plane tables are
  `array<uint32>` of length `kMaxPlanes`.

## Model

| member | source | states |
|---|---|---|
| `CdmTypes.ToUint64` | wvdecrypter/cdm/media/cdm/cdm_adapter.h:261 | storing an `int64_t` into the `uint64_t` timestamp keeps the 64-bit pattern: same value modulo 2^64, unchanged when non-negative, at least 2^63 when negative |
| `CdmTypes.ToInt64` | wvdecrypter/cdm/media/cdm/cdm_adapter.h:262 | returning the `uint64_t` field as `int64_t` reads the same 64-bit pattern in two's complement: same value modulo 2^64, unchanged below 2^63, negative from 2^63 up |
| `CdmTypes.Int64RoundTrip` | wvdecrypter/cdm/media/cdm/cdm_adapter.h:261-262 | a signed timestamp stored as unsigned and read back as signed is returned exactly, negative values included |
| `CdmTypes.Uint64RoundTrip` | wvdecrypter/cdm/media/cdm/cdm_adapter.h:279 | every unsigned pattern of the field is the image of exactly one signed timestamp, so the reinterpretation is a bijection |
| `VideoFrameSpec.Step` | wvdecrypter/cdm/media/cdm/cdm_adapter.h:246-266 | a setter with an in-range plane keeps both per-plane tables at exactly `kMaxPlanes` entries |
| `VideoFrameSpec.Run` | wvdecrypter/cdm/media/cdm/cdm_adapter.h:246-266 | any sequence of in-range setter calls keeps both tables at `kMaxPlanes` entries |
| `VideoFrameSpec.StepRead` | wvdecrypter/cdm/media/cdm/cdm_adapter.h:246-266 | after one setter, the getter of its slot returns exactly the argument (the timestamp through the unsigned field and back), and every other getter, including other planes of the same table, returns what it did before |
| `VideoFrameSpec.RunSnoc` | wvdecrypter/cdm/media/cdm/cdm_adapter.h:246-266 | setter calls compose left to right: a sequence followed by one more call is one more step |
| `VideoFrameSpec.RunReadsLastWrite` | wvdecrypter/cdm/media/cdm/cdm_adapter.h:246-266 | after any sequence of setter calls, each getter returns the value of the most recent setter of its slot, or its previous value when no call wrote that slot |
| `VideoFrameSpec.FreshFrameReads` | wvdecrypter/cdm/media/cdm/cdm_adapter.h:244-269 | on a new frame followed by setter calls, the frame buffer reads as null and the colour space as unspecified until a setter writes them |
| `VideoFrameSpec.StepOverwrites` | wvdecrypter/cdm/media/cdm/cdm_adapter.h:246-266 | a second call to the same setter (same plane, for the tables) makes the first one irrelevant |
| `VideoFrameSpec.StepsCommute` | wvdecrypter/cdm/media/cdm/cdm_adapter.h:246-266 | setter calls on different slots, including different planes of one table, can be swapped |
| `Media.CdmDecryptedBlock.constructor` | wvdecrypter/cdm/media/cdm/cdm_adapter.h:226 | a new decrypted block holds a null buffer and timestamp 0 |
| `Media.CdmDecryptedBlock.SetDecryptedBuffer` | wvdecrypter/cdm/media/cdm/cdm_adapter.h:229-230 | `DecryptedBuffer()` then returns exactly the reference stored, and the timestamp is unchanged |
| `Media.CdmDecryptedBlock.SetTimestamp` | wvdecrypter/cdm/media/cdm/cdm_adapter.h:232-233 | `Timestamp()` then returns exactly the timestamp stored, and the buffer reference is unchanged |
| `Media.CdmVideoFrame.constructor` | wvdecrypter/cdm/media/cdm/cdm_adapter.h:244-269 | a new frame owns two fresh tables of `kMaxPlanes` entries, holds a null frame buffer and the colour space {2, 2, 2, kInvalid}; format, size, tables and timestamp are left unconstrained |
| `Media.CdmVideoFrame.Timestamp` | wvdecrypter/cdm/media/cdm/cdm_adapter.h:262 | the returned signed value has the stored unsigned field as its 64-bit pattern |
| `Media.CdmVideoFrame.SetFormat` | wvdecrypter/cdm/media/cdm/cdm_adapter.h:246-247 | `Format()` then returns the format stored; the new state is the old one with only the format replaced |
| `Media.CdmVideoFrame.SetSize` | wvdecrypter/cdm/media/cdm/cdm_adapter.h:249-250 | `Size()` then returns the size stored; only the size changes |
| `Media.CdmVideoFrame.SetFrameBuffer` | wvdecrypter/cdm/media/cdm/cdm_adapter.h:252-253 | `FrameBuffer()` then returns exactly the reference stored; only the frame buffer changes |
| `Media.CdmVideoFrame.SetPlaneOffset` | wvdecrypter/cdm/media/cdm/cdm_adapter.h:255-256 | needs a plane below `kMaxPlanes`; `PlaneOffset(plane)` then returns the offset, every other plane's offset and the whole stride table are unchanged, and so are all other fields |
| `Media.CdmVideoFrame.SetStride` | wvdecrypter/cdm/media/cdm/cdm_adapter.h:258-259 | needs a plane below `kMaxPlanes`; `Stride(plane)` then returns the stride, every other plane's stride and the whole offset table are unchanged, and so are all other fields |
| `Media.CdmVideoFrame.SetTimestamp` | wvdecrypter/cdm/media/cdm/cdm_adapter.h:261-262 | the signed timestamp goes into the unsigned field, and `Timestamp()` then returns it exactly, negative values included; only the timestamp changes |
| `Media.CdmVideoFrame.SetColorSpace` | wvdecrypter/cdm/media/cdm/cdm_adapter.h:266-269 | the public colour-space member then holds the descriptor stored; only the colour space changes |

The getters (`DecryptedBuffer`, `Timestamp` of the block, `Format`, `Size`,
`FrameBuffer`, `PlaneOffset`, `Stride`) are functions that read one field.
Their contract is stated by the setter rows above, which cite the getter
lines too. The colour space has no getter in the source; the member
`color_space_` is public and is read directly.

## Left out

- `CdmAdapter` (cdm_adapter.h:39-200) is left out. It loads a shared
  library, guards two mutexes and forwards to the module's `ContentDecryptionModule_9/10/11`
  interfaces, and its method bodies are not in this header. This covers
  sessions, promises, timers, decrypt dispatch and version negotiation.
- `CdmAdapter::valid` (line 177) only tests the foreign library handle.
- `gtc` (line 18) reads the wall clock.
- `CdmFileIoImpl` (lines 202-218) performs `FILE*` I/O, and its bodies are not in this header.
- `CdmAdapterClient` (lines 20-35) is an interface with no behaviour.
- The buffers behind `cdm::Buffer*` are not modelled: their contents and
  pixel layout belong to the CDM. A reference is an opaque token compared
  by identity. The model does not capture two holders sharing one buffer.
- `content_decryption_module.h` is not part of this model. The layouts of
  `cdm::Size` and `cdm::ColorSpace` follow that interface. So do the
  `cdm::ColorRange` enumerators, `kMaxPlanes` = 3 and the plane indices 0-2.
  `cdm::VideoFormat` is kept as its 32-bit code, without its enumerator list.
- The source does not check the plane argument; indexing past `kMaxPlanes`
  is undefined behaviour in C++. So `SetPlaneOffset`, `SetStride`,
  `PlaneOffset` and `Stride` require a plane below `kMaxPlanes`.
- The source has no destructor behaviour to model: the holders never free
  their buffers.

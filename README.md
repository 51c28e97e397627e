# VOL grid container writer and volume data-source defaults

A verified model of two pieces of Mitsuba's volume support:

- **The VOL container writer** `writeNullVolumeGrid` of the volume test suite
  (module `VolFormat`, file `vol_format.dfy`). It writes a 48-byte header — magic
  `'V','O','L'`, version byte 3, the storage-type code, the x/y/z resolutions,
  the channel count and six bounding-box singles — followed by a zero-filled
  payload of `xres*yres*zres*channels` elements of 4 bytes (Float32) or 1 byte
  (UInt8, QuantizedDirections). The file stream is replaced by a byte sequence
  that the method extends field by field. A reader `ReadVolume` is given as the
  writer's inverse: it checks magic, version, storage type and payload length
  and returns the header fields and the payload. The lemmas prove that encoding
  and reading are mutually inverse, and the writer's contract states what its
  output reads back as.
- **The `VolumeDataSource` defaults** (module `VolumeSource`, file
  `volume_source.dfy`): the base source reports no lookup and no edit
  capability, every typed lookup and edit fails with an error naming the class
  and the operation, and an edit leaves the source unchanged. One dispatching
  lookup and one dispatching edit over the value kind (float, spectrum, vector)
  sit beside the six typed operations; their contracts state the gating rule:
  a call succeeds only where the capability is reported.

`wrappers.dfy` holds the `Option` and `Result` types.

Modelling choices:

- `writeInt` is 4-byte little-endian two's complement (`EncodeInt32`).
- `writeSingle` is a parameter `single: int -> seq<byte>`. It must give 4 bytes
  for every value; its IEEE-754 contents are not modelled.
- `Log(EError, …)` raises an error in Mitsuba. It becomes a returned failure:
  `UnsupportedType` for a storage type without a writer case (Float16),
  `NotImplemented(class, operation)` for the data-source defaults.
- A negative element count (a negative channel count) becomes a huge `size_t`
  in the source, so the `std::vector` allocation throws. It is modelled as
  `AllocationFailure`. The type check comes first, so Float16 still reports
  `UnsupportedType`.
- `assert(bounds.isValid())` at the top of the writer is a precondition. So is
  the absence of signed 32-bit overflow in the resolution and element-count
  arithmetic, which would be undefined behaviour (`FitsInt32`).

## Model

| member | source | states |
|---|---|---|
| `VolFormat.Code` | src/tests/test_volume.cpp:29-34 | every storage type is stored as a code in 1..4, and code 2 (Float16) is exactly the type with no element size |
| `VolFormat.FromCode` | src/tests/test_volume.cpp:29-34 | a stored code names a storage type exactly when it is 1..4 (Float32=1, Float16=2, UInt8=3, QuantizedDirections=4), and the type found has that code |
| `VolFormat.CodeRoundTrip` | src/tests/test_volume.cpp:29-34 | every storage type's code reads back as that type |
| `VolFormat.ElementSize` | src/tests/test_volume.cpp:317-336 | elements are 4 bytes for Float32 and 1 byte for UInt8 and QuantizedDirections; Float16 has no element size (rejected) |
| `VolFormat.EncodeInt32` | src/tests/test_volume.cpp:296-305 | a 32-bit field is written as 4 bytes whose last (most significant) byte has its sign bit set exactly for a negative value |
| `VolFormat.DecodeInt32` | src/tests/test_volume.cpp:296-305 | every 4-byte field reads as a signed 32-bit integer, negative exactly when the last byte's sign bit is set |
| `VolFormat.DecodeEncodeInt32` | src/tests/test_volume.cpp:296-305 | reading back a written 32-bit field gives the written integer |
| `VolFormat.EncodeDecodeInt32` | src/tests/test_volume.cpp:296-305 | every 4-byte field is the encoding of the integer it reads as |
| `VolFormat.EncodeHeader` | src/tests/test_volume.cpp:292-312 | the header is 3+1+4+12+4+24 = 48 bytes |
| `VolFormat.BoundingBox3i.Resolution` | src/tests/test_volume.cpp:298-300 | each axis resolution is at least 1 and counts both corners: min + res - 1 == max |
| `VolFormat.BoundsBytes` | src/tests/test_volume.cpp:307-312 | 24 bytes: min.x, min.y, min.z, max.x, max.y, max.z singles at offsets 0, 4, …, 20 |
| `VolFormat.Zeros` | src/tests/test_volume.cpp:319-327 | a payload of n bytes, every one zero |
| `VolFormat.ReadVolume` | src/tests/test_volume.cpp:292-338 | a container reads successfully only if it starts with 'V','O','L',3, has a type other than Float16, and its payload has exactly count × element-size bytes after the 48-byte header |
| `VolFormat.ReadEncodedVolume` | src/tests/test_volume.cpp:292-338 | header fields plus a payload of the announced length, once written, read back as exactly those fields and that payload |
| `VolFormat.ReadVolumeIsExact` | src/tests/test_volume.cpp:292-338 | a container that reads successfully is byte for byte the encoding of what was read |
| `VolFormat.WriteNullVolumeGrid` | src/tests/test_volume.cpp:287-342 | Float16 is rejected; a negative element count fails allocation; otherwise the output is 48 + xres·yres·zres·channels·elementSize bytes, reads back with the given type, resolutions max-min+1, channel count and bounding-box singles, and every payload byte is zero |
| `VolumeSource.SupportsFloatLookups` | src/librender/volume.cpp:57-59 | the base source does not support float lookups |
| `VolumeSource.SupportsSpectrumLookups` | src/librender/volume.cpp:61-63 | the base source does not support spectrum lookups |
| `VolumeSource.SupportsVectorLookups` | src/librender/volume.cpp:65-67 | the base source does not support vector lookups |
| `VolumeSource.SupportsFloatEdits` | src/librender/volume.cpp:81-83 | the base source does not support float edits |
| `VolumeSource.SupportsSpectrumEdits` | src/librender/volume.cpp:85-87 | the base source does not support spectrum edits |
| `VolumeSource.SupportsVectorEdits` | src/librender/volume.cpp:89-91 | the base source does not support vector edits |
| `VolumeSource.Supports` | src/librender/volume.cpp:57-91 | the base source reports none of the six capabilities (float/spectrum/vector lookups and edits) |
| `VolumeSource.Message` | src/librender/volume.cpp:42-79 | the logged error is exactly the class name in quotes, then "': does not implement ", then the operation's name (lookupFloat … editVector), then "()!" |
| `VolumeSource.ClosingQuote` | src/librender/volume.cpp:42-79 | for a class name without a quote character, the first quote after the opening one is the one right after the class name |
| `VolumeSource.MessageIdentifiesError` | src/librender/volume.cpp:42-79 | for class names without a quote character, two equal error messages come from the same class and the same operation |
| `VolumeSource.Placeholder` | src/librender/volume.cpp:44-54 | the value written after the logged error: 0 for a float lookup, Spectrum(0) for a spectrum lookup, none for a vector lookup; it is never returned, because logging the error raises first, so the lookups fail instead |
| `VolumeSource.LookupFloat` | src/librender/volume.cpp:42-45 | fails with NotImplemented(class, lookupFloat); would succeed only with the float-lookup capability |
| `VolumeSource.LookupSpectrum` | src/librender/volume.cpp:47-50 | fails with NotImplemented(class, lookupSpectrum); would succeed only with the spectrum-lookup capability |
| `VolumeSource.LookupVector` | src/librender/volume.cpp:52-55 | fails with NotImplemented(class, lookupVector); would succeed only with the vector-lookup capability |
| `VolumeSource.EditFloat` | src/librender/volume.cpp:69-71 | reports NotImplemented(class, editFloat) and leaves the source unchanged |
| `VolumeSource.EditSpectrum` | src/librender/volume.cpp:73-75 | reports NotImplemented(class, editSpectrum) and leaves the source unchanged |
| `VolumeSource.EditVector` | src/librender/volume.cpp:77-79 | reports NotImplemented(class, editVector) and leaves the source unchanged |
| `VolumeSource.LookupValue` | src/librender/volume.cpp:42-67 | a lookup of a kind succeeds only where that lookup capability is reported, and then yields a value of that kind; otherwise it fails naming that lookup |
| `VolumeSource.EditValue` | src/librender/volume.cpp:69-91 | an edit succeeds only where that edit capability is reported; without it the source is unchanged and the error names the edit of the value's kind |

## Left out

- Grid sampling, editing and the UInt8 / quantized-direction codecs: the `gridvolume` plugin that implements them is not part of this model.
- `ReadVolume`: the container loader of the `gridvolume` plugin is not part of this model; this reader is the inverse of the writer, not a model of that loader.
- `FileStream`, temporary files, `flush` and `getPath`: the stream is replaced by the returned byte sequence.
- `VolFormat.WriteNullVolumeGrid`: the IEEE-754 contents of `writeSingle` are not modelled; the single encoder is a parameter that only has to produce 4 bytes.
- `VolFormat.WriteNullVolumeGrid`: inputs whose 32-bit arithmetic overflows are excluded by the precondition, because signed overflow is undefined behaviour.
- The byte order of `writeInt` belongs to the stream class; it is taken to be little-endian.
- In the source, the `std::vector` holding the zero payload is destroyed at the end of its `case` block, before `fs->write(data, size)` reads it. The model writes the intended all-zero payload, not that undefined behaviour.
- The `constvolume` plugin, the plugin manager and `Properties` parsing used by the tests: external collaborators.
- The serialization constructor and `serialize` of `VolumeDataSource` (`ConfigurableObject`, `InstanceManager`, `AABB(stream)`): foreign calls.
- `Spectrum` internals and floating point: values are kept abstract (`real`, a spectrum built from one fill value).

/**
 * The VOL grid container as laid out by `writeNullVolumeGrid`:
 *
 *   offset  size  field
 *        0     3  magic 'V','O','L'
 *        3     1  version (3)
 *        4     4  storage type code
 *        8    12  resolution x, y, z
 *       20     4  channel count
 *       24    24  bounding box min.x/y/z, max.x/y/z as singles
 *       48     -  payload: xres*yres*zres*channels elements
 *
 * Integers are written as 4-byte little-endian two's complement.
 * The single-precision encoding of the bounding box is a parameter.
 */
module VolFormat {
  import opened Wrappers

  newtype byte = x: int | 0 <= x < 256

  const Int32Min: int := -0x8000_0000
  const Int32Max: int := 0x7fff_ffff

  predicate IsInt32(v: int) { Int32Min <= v <= Int32Max }

  // ---------------------------------------------------------------------
  // Storage types (GridDataSource::EVolumeType)
  // ---------------------------------------------------------------------

  datatype VolumeType = Float32 | Float16 | UInt8 | QuantizedDirections

  /** The integer stored for each storage type. */
  function Code(t: VolumeType): (c: int)
    ensures 1 <= c <= 4
    ensures c == 2 <==> ElementSize(t).None?
  {
    match t
    case Float32 => 1
    case Float16 => 2
    case UInt8 => 3
    case QuantizedDirections => 4
  }

  /** The storage type a stored code stands for, if any. */
  function FromCode(c: int): (r: Option<VolumeType>)
    ensures r.Some? <==> 1 <= c <= 4
    ensures r.Some? ==> Code(r.value) == c
  {
    if c == 1 then Some(Float32)
    else if c == 2 then Some(Float16)
    else if c == 3 then Some(UInt8)
    else if c == 4 then Some(QuantizedDirections)
    else None
  }

  /** Every storage type's code reads back as that type. */
  lemma CodeRoundTrip(t: VolumeType)
    ensures FromCode(Code(t)) == Some(t)
  {
  }

  /** Bytes per payload element; Float16 has no writer and no reader. */
  function ElementSize(t: VolumeType): (r: Option<nat>)
    ensures r.None? <==> t == Float16
    ensures t == Float32 ==> r == Some(4)
    ensures t == UInt8 || t == QuantizedDirections ==> r == Some(1)
  {
    match t
    case Float32 => Some(4)
    case UInt8 => Some(1)
    case QuantizedDirections => Some(1)
    case Float16 => None
  }

  // ---------------------------------------------------------------------
  // 32-bit integers, little-endian two's complement
  // ---------------------------------------------------------------------

  function EncodeInt32(v: int): (b: seq<byte>)
    requires IsInt32(v)
    ensures |b| == 4
    ensures v < 0 <==> b[3] >= 0x80
  {
    var u := if v < 0 then v + 0x1_0000_0000 else v;
    [(u % 0x100) as byte, (u / 0x100 % 0x100) as byte,
     (u / 0x1_0000 % 0x100) as byte, (u / 0x100_0000) as byte]
  }

  function DecodeInt32(b: seq<byte>): (v: int)
    requires |b| == 4
    ensures IsInt32(v)
    ensures v < 0 <==> b[3] >= 0x80
  {
    var u := b[0] as int + 0x100 * b[1] as int + 0x1_0000 * b[2] as int + 0x100_0000 * b[3] as int;
    if u >= 0x8000_0000 then u - 0x1_0000_0000 else u
  }

  lemma DecodeEncodeInt32(v: int)
    requires IsInt32(v)
    ensures DecodeInt32(EncodeInt32(v)) == v
  {
    var u := if v < 0 then v + 0x1_0000_0000 else v;
    var q1 := u / 0x100;
    var q2 := q1 / 0x100;
    var q3 := q2 / 0x100;
    assert u == u % 0x100 + 0x100 * q1;
    assert q1 == q1 % 0x100 + 0x100 * q2;
    assert q2 == q2 % 0x100 + 0x100 * q3;
    assert u / 0x1_0000 == q2;
    assert u / 0x100_0000 == q3;
  }

  lemma EncodeDecodeInt32(b: seq<byte>)
    requires |b| == 4
    ensures EncodeInt32(DecodeInt32(b)) == b
  {
    var w2 := b[2] as int + 0x100 * b[3] as int;
    var w1 := b[1] as int + 0x100 * w2;
    var u := b[0] as int + 0x100 * w1;
    assert u == b[0] as int + 0x100 * b[1] as int + 0x1_0000 * b[2] as int + 0x100_0000 * b[3] as int;
    assert u % 0x100 == b[0] as int && u / 0x100 == w1;
    assert w1 % 0x100 == b[1] as int && w1 / 0x100 == w2;
    assert w2 % 0x100 == b[2] as int && w2 / 0x100 == b[3] as int;
    assert u / 0x1_0000 == w2;
    assert u / 0x100_0000 == b[3] as int;
    var e := EncodeInt32(DecodeInt32(b));
    assert e[0] == b[0] && e[1] == b[1] && e[2] == b[2] && e[3] == b[3];
  }

  // ---------------------------------------------------------------------
  // Header and container
  // ---------------------------------------------------------------------

  const Magic: seq<byte> := [86, 79, 76]   // 'V', 'O', 'L'
  const Version: byte := 3

  const TypeOffset: nat := 4
  const ResolutionOffset: nat := 8
  const ChannelsOffset: nat := 20
  const BoundsOffset: nat := 24
  const HeaderSize: nat := 48

  /** The fields of a container header; the bounding box is kept as its 24 stored bytes. */
  datatype Header = Header(volumeType: VolumeType, xres: int, yres: int, zres: int,
                           channels: int, boundsBytes: seq<byte>)
  {
    predicate Valid()
    {
      IsInt32(xres) && IsInt32(yres) && IsInt32(zres) && IsInt32(channels) && |boundsBytes| == 24
    }

    /** Number of payload elements the header announces. */
    function ElementCount(): int
    {
      xres * yres * zres * channels
    }
  }

  datatype Volume = Volume(header: Header, payload: seq<byte>)

  datatype FormatError =
    | Truncated
    | BadMagic
    | BadVersion(version: byte)
    | UnknownVolumeType(code: int)
    | UnsupportedVolumeType(volumeType: VolumeType)
    | PayloadLengthMismatch

  /** The 48 header bytes of `h`, field after field. */
  function EncodeHeader(h: Header): (b: seq<byte>)
    requires h.Valid()
    ensures |b| == HeaderSize
  {
    Magic + [Version] + EncodeInt32(Code(h.volumeType))
      + EncodeInt32(h.xres) + EncodeInt32(h.yres) + EncodeInt32(h.zres)
      + EncodeInt32(h.channels) + h.boundsBytes
  }

  /** The 4-byte field of `s` at `offset`, read as a signed integer. */
  function IntAt(s: seq<byte>, offset: nat): (v: int)
    requires offset + 4 <= |s|
    ensures IsInt32(v)
  {
    DecodeInt32(s[offset..offset + 4])
  }

  /**
   * Reads a container: checks magic, version and storage type, then that
   * the payload has exactly the length the header announces.
   */
  function ReadVolume(s: seq<byte>): (r: Result<Volume, FormatError>)
    ensures r.Success? ==> r.value.header.Valid() && |s| == HeaderSize + |r.value.payload|
    ensures r.Success? ==> s[..3] == Magic && s[3] == Version && r.value.header.volumeType != Float16
    ensures r.Success? ==>
              |r.value.payload| == r.value.header.ElementCount() * ElementSize(r.value.header.volumeType).value
  {
    if |s| < HeaderSize then Failure(Truncated)
    else if s[..3] != Magic then Failure(BadMagic)
    else if s[3] != Version then Failure(BadVersion(s[3]))
    else
      var code := IntAt(s, TypeOffset);
      match FromCode(code)
      case None => Failure(UnknownVolumeType(code))
      case Some(t) =>
        match ElementSize(t)
        case None => Failure(UnsupportedVolumeType(t))
        case Some(size) =>
          var h := Header(t, IntAt(s, ResolutionOffset), IntAt(s, ResolutionOffset + 4),
                          IntAt(s, ResolutionOffset + 8), IntAt(s, ChannelsOffset),
                          s[BoundsOffset..HeaderSize]);
          if |s| - HeaderSize != h.ElementCount() * size then Failure(PayloadLengthMismatch)
          else Success(Volume(h, s[HeaderSize..]))
  }

  /** Whatever header and payload are encoded, reading them back gives the same values. */
  lemma ReadEncodedVolume(h: Header, payload: seq<byte>)
    requires h.Valid() && ElementSize(h.volumeType).Some?
    requires |payload| == h.ElementCount() * ElementSize(h.volumeType).value
    ensures ReadVolume(EncodeHeader(h) + payload) == Success(Volume(h, payload))
  {
    var s := EncodeHeader(h) + payload;
    assert s[..3] == Magic;
    assert s[3] == Version;
    assert s[TypeOffset..TypeOffset + 4] == EncodeInt32(Code(h.volumeType));
    assert s[8..12] == EncodeInt32(h.xres);
    assert s[12..16] == EncodeInt32(h.yres);
    assert s[16..20] == EncodeInt32(h.zres);
    assert s[20..24] == EncodeInt32(h.channels);
    assert s[24..48] == h.boundsBytes;
    assert s[48..] == payload;
    DecodeEncodeInt32(Code(h.volumeType));
    DecodeEncodeInt32(h.xres);
    DecodeEncodeInt32(h.yres);
    DecodeEncodeInt32(h.zres);
    DecodeEncodeInt32(h.channels);
  }

  /** A container that reads successfully is exactly its header's encoding followed by its payload. */
  lemma ReadVolumeIsExact(s: seq<byte>)
    requires ReadVolume(s).Success?
    ensures EncodeHeader(ReadVolume(s).value.header) + ReadVolume(s).value.payload == s
  {
    var v := ReadVolume(s).value;
    var h := v.header;
    EncodeDecodeInt32(s[4..8]);
    EncodeDecodeInt32(s[8..12]);
    EncodeDecodeInt32(s[12..16]);
    EncodeDecodeInt32(s[16..20]);
    EncodeDecodeInt32(s[20..24]);
    assert EncodeInt32(Code(h.volumeType)) == s[4..8];
    assert s == s[..3] + [s[3]] + s[4..8] + s[8..12] + s[12..16] + s[16..20] + s[20..24]
                + s[24..48] + s[48..];
  }

  // ---------------------------------------------------------------------
  // writeNullVolumeGrid
  // ---------------------------------------------------------------------

  datatype Point3i = Point3i(x: int, y: int, z: int)

  /** An integer axis-aligned box with inclusive corners (TAABB<Point3i>). */
  datatype BoundingBox3i = BoundingBox3i(min: Point3i, max: Point3i)
  {
    predicate IsValid()
    {
      min.x <= max.x && min.y <= max.y && min.z <= max.z
    }

    /** Lattice points per axis: both corners are included. */
    function Resolution(): (r: Point3i)
      requires IsValid()
      ensures r.x >= 1 && r.y >= 1 && r.z >= 1
      ensures min.x + r.x - 1 == max.x && min.y + r.y - 1 == max.y && min.z + r.z - 1 == max.z
    {
      Point3i(max.x - min.x + 1, max.y - min.y + 1, max.z - min.z + 1)
    }
  }

  /**
   * The writer computes with signed 32-bit ints: the corners, the three
   * resolutions, the channel count and each partial product of the element
   * count stay in range (overflow would be undefined behaviour).
   */
  predicate FitsInt32(bounds: BoundingBox3i, channels: int)
    requires bounds.IsValid()
  {
    var r := bounds.Resolution();
    IsInt32(bounds.min.x) && IsInt32(bounds.min.y) && IsInt32(bounds.min.z)
    && IsInt32(bounds.max.x) && IsInt32(bounds.max.y) && IsInt32(bounds.max.z)
    && IsInt32(channels) && IsInt32(r.x) && IsInt32(r.y) && IsInt32(r.z)
    && IsInt32(r.x * r.y) && IsInt32(r.x * r.y * r.z) && IsInt32(r.x * r.y * r.z * channels)
  }

  datatype WriteError =
    | UnsupportedType      // "EVolumeType not supported"
    | AllocationFailure    // a negative element count turns into a huge size_t

  /** The bytes of the six bounding-box singles: min.x/y/z, then max.x/y/z. */
  function BoundsBytes(bounds: BoundingBox3i, single: int -> seq<byte>): (b: seq<byte>)
    requires forall v :: |single(v)| == 4
    ensures |b| == 24
    ensures b[0..4] == single(bounds.min.x) && b[4..8] == single(bounds.min.y)
    ensures b[8..12] == single(bounds.min.z) && b[12..16] == single(bounds.max.x)
    ensures b[16..20] == single(bounds.max.y) && b[20..24] == single(bounds.max.z)
  {
    single(bounds.min.x) + single(bounds.min.y) + single(bounds.min.z)
      + single(bounds.max.x) + single(bounds.max.y) + single(bounds.max.z)
  }

  function Zeros(n: nat): (z: seq<byte>)
    ensures |z| == n && forall i :: 0 <= i < n ==> z[i] == 0
  {
    seq(n, _ => 0)
  }

  /**
   * Writes a VOL container of the given storage type whose grid spans
   * `bounds` with `channels` values per voxel, every payload byte zero.
   */
  method WriteNullVolumeGrid(volumeType: VolumeType, channels: int, bounds: BoundingBox3i,
                             single: int -> seq<byte>)
    returns (r: Result<seq<byte>, WriteError>)
    requires bounds.IsValid() && FitsInt32(bounds, channels)
    requires forall v :: |single(v)| == 4
    ensures volumeType == Float16 ==> r == Failure(UnsupportedType)
    ensures volumeType != Float16 ==>
              (r.Failure? <==> bounds.Resolution().x * bounds.Resolution().y * bounds.Resolution().z * channels < 0)
    ensures r.Failure? && volumeType != Float16 ==> r.error == AllocationFailure
    ensures r.Success? ==>
              |r.value| == HeaderSize + bounds.Resolution().x * bounds.Resolution().y
                                        * bounds.Resolution().z * channels * ElementSize(volumeType).value
    ensures r.Success? ==>
              ReadVolume(r.value)
              == Success(Volume(Header(volumeType, bounds.Resolution().x, bounds.Resolution().y,
                                       bounds.Resolution().z, channels, BoundsBytes(bounds, single)),
                                Zeros(|r.value| - HeaderSize)))
    ensures r.Success? ==> forall i :: HeaderSize <= i < |r.value| ==> r.value[i] == 0
  {
    var out: seq<byte> := Magic;
    out := out + [Version];
    out := out + EncodeInt32(Code(volumeType));

    var xres := bounds.max.x - bounds.min.x + 1;
    var yres := bounds.max.y - bounds.min.y + 1;
    var zres := bounds.max.z - bounds.min.z + 1;
    out := out + EncodeInt32(xres);
    out := out + EncodeInt32(yres);
    out := out + EncodeInt32(zres);

    out := out + EncodeInt32(channels);

    out := out + single(bounds.min.x);
    out := out + single(bounds.min.y);
    out := out + single(bounds.min.z);
    out := out + single(bounds.max.x);
    out := out + single(bounds.max.y);
    out := out + single(bounds.max.z);

    var size := xres * yres * zres * channels;
    match volumeType {
      case Float32 =>
        if size < 0 { return Failure(AllocationFailure); }
        size := size * 4;
      case QuantizedDirections =>
        if size < 0 { return Failure(AllocationFailure); }
        size := size * 1;
      case UInt8 =>
        if size < 0 { return Failure(AllocationFailure); }
        size := size * 1;
      case Float16 =>
        return Failure(UnsupportedType);
    }

    ghost var h := Header(volumeType, xres, yres, zres, channels, BoundsBytes(bounds, single));
    assert out == EncodeHeader(h);
    out := out + Zeros(size);
    ReadEncodedVolume(h, Zeros(size));
    return Success(out);
  }
}

/**
 * The byte-level half of `generate_wav_file` in audio_utils.py: a mono,
 * 16-bit PCM RIFF/WAVE file written field by field into an in-memory byte
 * buffer, with the RIFF size written as a placeholder and patched at the end.
 * The samples arrive already as 16-bit integers.
 */
module Wav {
  import opened Wrappers

  type Byte = b: int | 0 <= b < 0x100

  /** A signed 16-bit PCM sample (`np.int16`). */
  type Int16 = s: int | -0x8000 <= s < 0x8000

  /** The first value that `struct.pack('<I', ...)` cannot hold. */
  const U32_LIMIT: int := 0x1_0000_0000

  /** `struct.error`, raised by `struct.pack` for a value out of the format's range. */
  datatype PackError = OutOfRange(value: int)

  // ---------------------------------------------------------------------------
  // Little-endian fields
  // ---------------------------------------------------------------------------

  function DecodeU16(lo: Byte, hi: Byte): (x: nat)
    ensures x < 0x1_0000
  {
    lo + 0x100 * hi
  }

  /** `struct.pack('<H', x)`. */
  function U16LE(x: nat): (bs: seq<Byte>)
    requires x < 0x1_0000
    ensures |bs| == 2
  {
    [x % 0x100, x / 0x100]
  }

  lemma U16RoundTrip(x: nat)
    requires x < 0x1_0000
    ensures DecodeU16(U16LE(x)[0], U16LE(x)[1]) == x
  {
  }

  function DecodeU32(bs: seq<Byte>): (x: nat)
    requires |bs| == 4
    ensures x < U32_LIMIT
  {
    DecodeU16(bs[0], bs[1]) + 0x1_0000 * DecodeU16(bs[2], bs[3])
  }

  /** `struct.pack('<I', x)` for a value in range: the low half first. */
  function U32LE(x: nat): (bs: seq<Byte>)
    requires x < U32_LIMIT
    ensures |bs| == 4
  {
    U16LE(x % 0x1_0000) + U16LE(x / 0x1_0000)
  }

  /** The low half is read from the first two bytes and the high half from the last two. */
  lemma U32RoundTrip(x: nat)
    requires x < U32_LIMIT
    ensures DecodeU32(U32LE(x)) == x
  {
    var bs := U32LE(x);
    U16RoundTrip(x % 0x1_0000);
    U16RoundTrip(x / 0x1_0000);
    assert bs[..2] == U16LE(x % 0x1_0000) && bs[2..] == U16LE(x / 0x1_0000);
  }

  /** `struct.pack('<I', v)` for any Python int: out of range raises. */
  function PackU32(v: int): (r: Result<seq<Byte>, PackError>)
    ensures r.Success? <==> 0 <= v < U32_LIMIT
    ensures r.Success? ==> |r.value| == 4
    ensures r.Failure? ==> r.error == OutOfRange(v)
  {
    if 0 <= v < U32_LIMIT then Success(U32LE(v)) else Failure(OutOfRange(v))
  }

  function DecodeS16(lo: Byte, hi: Byte): Int16
  {
    var u := DecodeU16(lo, hi);
    if u >= 0x8000 then u - 0x1_0000 else u
  }

  /** One sample as `tobytes()` lays it out on a little-endian host: two's complement, low byte first. */
  function S16LE(s: Int16): (bs: seq<Byte>)
    ensures |bs| == 2
  {
    U16LE(if s < 0 then s + 0x1_0000 else s)
  }

  /** Two's complement round trip: negative samples come back through the upper half of the 16-bit range. */
  lemma S16RoundTrip(s: Int16)
    ensures DecodeS16(S16LE(s)[0], S16LE(s)[1]) == s
  {
    U16RoundTrip(if s < 0 then s + 0x1_0000 else s);
  }

  /** `scaled.tobytes()`: the samples' encodings back to back, in order. */
  function SamplesLE(samples: seq<Int16>): (bs: seq<Byte>)
    ensures |bs| == 2 * |samples|
  {
    if samples == [] then [] else S16LE(samples[0]) + SamplesLE(samples[1..])
  }

  /** Reads back a run of 16-bit samples; a trailing odd byte is ignored. */
  function ParseSamples(bs: seq<Byte>): (samples: seq<Int16>)
    ensures 2 * |samples| <= |bs| < 2 * |samples| + 2
  {
    if |bs| < 2 then [] else [DecodeS16(bs[0], bs[1])] + ParseSamples(bs[2..])
  }

  /** Sample `k` occupies bytes `2k` and `2k + 1`. */
  lemma {:induction false} SampleBytes(samples: seq<Int16>, k: nat)
    requires k < |samples|
    ensures SamplesLE(samples)[2 * k .. 2 * k + 2] == S16LE(samples[k])
  {
    var bs := SamplesLE(samples);
    if k > 0 {
      SampleBytes(samples[1..], k - 1);
      assert bs[2 * k .. 2 * k + 2] == SamplesLE(samples[1..])[2 * (k - 1) .. 2 * (k - 1) + 2];
    }
  }

  /** Reading the bytes of a run of samples gives the samples back. */
  lemma {:induction false} SamplesRoundTrip(samples: seq<Int16>)
    ensures ParseSamples(SamplesLE(samples)) == samples
  {
    if samples != [] {
      var bs := SamplesLE(samples);
      S16RoundTrip(samples[0]);
      SamplesRoundTrip(samples[1..]);
      assert bs[2..] == SamplesLE(samples[1..]);
    }
  }

  // ---------------------------------------------------------------------------
  // The file layout
  // ---------------------------------------------------------------------------

  /** The four-character chunk tags, as their ASCII bytes. */
  const RIFF: seq<Byte> := [0x52, 0x49, 0x46, 0x46]
  const WAVE: seq<Byte> := [0x57, 0x41, 0x56, 0x45]
  const FMT: seq<Byte> := [0x66, 0x6d, 0x74, 0x20]
  const DATA: seq<Byte> := [0x64, 0x61, 0x74, 0x61]

  /** The sample rate and sample count a WAV file can record without `struct.error`. */
  predicate Encodable(sampleRate: int, count: nat)
  {
    0 <= sampleRate && 2 * sampleRate < U32_LIMIT && 36 + 2 * count < U32_LIMIT
  }

  /**
   * The `fmt ` chunk, 24 bytes: its tag, its size 16, PCM format 1, one
   * channel, the sample rate, the byte rate (two bytes a sample), block
   * align 2 and 16 bits per sample.
   */
  function FmtChunk(sampleRate: nat): (bs: seq<Byte>)
    requires 2 * sampleRate < U32_LIMIT
    ensures |bs| == 24
  {
    FMT + U32LE(16) + U16LE(1) + U16LE(1) + U32LE(sampleRate) + U32LE(2 * sampleRate) + U16LE(2) + U16LE(16)
  }

  /** The `data` chunk: its tag, its size in bytes, then the samples. */
  function DataChunk(samples: seq<Int16>): (bs: seq<Byte>)
    requires 2 * |samples| < U32_LIMIT
    ensures |bs| == 8 + 2 * |samples|
  {
    DATA + U32LE(2 * |samples|) + SamplesLE(samples)
  }

  /**
   * The bytes `generate_wav_file` builds before base64: `RIFF`, the size of
   * everything after the size field, `WAVE`, then the two chunks; or the
   * `struct.error` of the first field that does not fit in 32 bits.
   */
  function WavFile(samples: seq<Int16>, sampleRate: int): (r: Result<seq<Byte>, PackError>)
    ensures r.Success? <==> Encodable(sampleRate, |samples|)
    ensures r.Success? ==> |r.value| == 44 + 2 * |samples|
    ensures !(0 <= sampleRate < U32_LIMIT) ==> r == Failure(OutOfRange(sampleRate))
  {
    var n := |samples|;
    if !(0 <= sampleRate < U32_LIMIT) then Failure(OutOfRange(sampleRate))
    else if 2 * sampleRate >= U32_LIMIT then Failure(OutOfRange(2 * sampleRate))
    else if 2 * n >= U32_LIMIT then Failure(OutOfRange(2 * n))
    else if 36 + 2 * n >= U32_LIMIT then Failure(OutOfRange(36 + 2 * n))
    else Success(RIFF + U32LE(36 + 2 * n) + WAVE + FmtChunk(sampleRate) + DataChunk(samples))
  }

  /** Where each field of the `fmt ` chunk sits. */
  lemma {:induction false} FmtLayout(sampleRate: nat)
    requires 2 * sampleRate < U32_LIMIT
    ensures var bs := FmtChunk(sampleRate);
      && bs[0..4] == FMT && bs[4..8] == U32LE(16) && bs[8..10] == U16LE(1) && bs[10..12] == U16LE(1)
      && bs[12..16] == U32LE(sampleRate) && bs[16..20] == U32LE(2 * sampleRate)
      && bs[20..22] == U16LE(2) && bs[22..24] == U16LE(16)
  {
    var p1 := FMT + U32LE(16);
    var p2 := p1 + U16LE(1);
    var p3 := p2 + U16LE(1);
    var p4 := p3 + U32LE(sampleRate);
    var p5 := p4 + U32LE(2 * sampleRate);
    var p6 := p5 + U16LE(2);
    assert FmtChunk(sampleRate) == p6 + U16LE(16);
  }

  /** The `data` chunk is its tag, the size `2n`, then the samples from byte 8 on. */
  lemma {:induction false} DataLayout(samples: seq<Int16>)
    requires 2 * |samples| < U32_LIMIT
    ensures var bs := DataChunk(samples);
      bs[0..4] == DATA && bs[4..8] == U32LE(2 * |samples|) && bs[8..] == SamplesLE(samples)
  {
    var head := DATA + U32LE(2 * |samples|);
    assert DataChunk(samples)[..8] == head;
  }

  /**
   * The file is `RIFF`, the size `36 + 2n`, `WAVE`, the `fmt ` chunk in bytes
   * 12 to 35 and the `data` chunk from byte 36 on.
   */
  lemma {:induction false} WavLayout(samples: seq<Int16>, sampleRate: int)
    requires WavFile(samples, sampleRate).Success?
    ensures var bs, n := WavFile(samples, sampleRate).value, |samples|;
      && bs[0..4] == RIFF && bs[4..8] == U32LE(36 + 2 * n) && bs[8..12] == WAVE
      && bs[12..36] == FmtChunk(sampleRate) && bs[36..] == DataChunk(samples)
  {
    var n := |samples|;
    assert Encodable(sampleRate, n);
    ChunkLayout(U32LE(36 + 2 * n), FmtChunk(sampleRate), DataChunk(samples));
  }

  /** Slicing the five parts of a RIFF file back out of their concatenation. */
  lemma {:induction false} ChunkLayout(size: seq<Byte>, fmt: seq<Byte>, data: seq<Byte>)
    requires |size| == 4 && |fmt| == 24
    ensures var bs := RIFF + size + WAVE + fmt + data;
      && bs[0..4] == RIFF && bs[4..8] == size && bs[8..12] == WAVE
      && bs[12..36] == fmt && bs[36..] == data
  {
    var bs := RIFF + size + WAVE + fmt + data;
    assert bs[..36] == RIFF + size + WAVE + fmt;
    assert bs[..12] == RIFF + size + WAVE;
    assert bs[..8] == RIFF + size;
  }

  /** Reads a `fmt ` chunk, refusing any fixed field that does not hold its value; gives the sample rate. */
  function ParseFmt(bs: seq<Byte>): (rate: Option<nat>)
    requires |bs| == 24
    ensures rate.Some? ==> 2 * rate.value < U32_LIMIT
  {
    if bs[0..4] != FMT || DecodeU32(bs[4..8]) != 16 then None
    else if DecodeU16(bs[8], bs[9]) != 1 || DecodeU16(bs[10], bs[11]) != 1 then None
    else if DecodeU32(bs[16..20]) != 2 * DecodeU32(bs[12..16]) then None
    else if DecodeU16(bs[20], bs[21]) != 2 || DecodeU16(bs[22], bs[23]) != 16 then None
    else Some(DecodeU32(bs[12..16]))
  }

  lemma {:induction false} FmtRoundTrip(sampleRate: nat)
    requires 2 * sampleRate < U32_LIMIT
    ensures ParseFmt(FmtChunk(sampleRate)) == Some(sampleRate)
  {
    FmtLayout(sampleRate);
    U32RoundTrip(16);
    U16RoundTrip(1);
    U32RoundTrip(sampleRate);
    U32RoundTrip(2 * sampleRate);
    U16RoundTrip(2);
    U16RoundTrip(16);
  }

  /** Reads a `data` chunk whose size field matches the bytes that follow it. */
  function ParseData(bs: seq<Byte>): (samples: Option<seq<Int16>>)
    requires |bs| >= 8
    ensures samples.Some? ==> |bs| == 8 + 2 * |samples.value|
  {
    var samples := ParseSamples(bs[8..]);
    if bs[0..4] != DATA || DecodeU32(bs[4..8]) != |bs| - 8 || 2 * |samples| != |bs| - 8 then None
    else Some(samples)
  }

  lemma {:induction false} DataRoundTrip(samples: seq<Int16>)
    requires 2 * |samples| < U32_LIMIT
    ensures ParseData(DataChunk(samples)) == Some(samples)
  {
    DataLayout(samples);
    U32RoundTrip(2 * |samples|);
    SamplesRoundTrip(samples);
  }

  /** What a reader recovers from a WAV file: its rate and its samples. */
  datatype WavData = WavData(sampleRate: nat, samples: seq<Int16>)

  /**
   * A reader for exactly the files `generate_wav_file` writes: every fixed
   * field must hold its value and both sizes must agree with the length.
   */
  function ParseWav(bs: seq<Byte>): (r: Option<WavData>)
    ensures r.Some? ==> |bs| == 44 + 2 * |r.value.samples|
  {
    if |bs| < 44 || bs[0..4] != RIFF || DecodeU32(bs[4..8]) != |bs| - 8 || bs[8..12] != WAVE then None
    else match (ParseFmt(bs[12..36]), ParseData(bs[36..]))
      case (Some(rate), Some(samples)) => Some(WavData(rate, samples))
      case _ => None
  }

  /** Reading back a written file recovers the sample rate and every sample, in order. */
  lemma {:induction false} WavRoundTrip(samples: seq<Int16>, sampleRate: int)
    requires WavFile(samples, sampleRate).Success?
    ensures ParseWav(WavFile(samples, sampleRate).value) == Some(WavData(sampleRate, samples))
  {
    var bs, n := WavFile(samples, sampleRate).value, |samples|;
    WavLayout(samples, sampleRate);
    U32RoundTrip(36 + 2 * n);
    FmtRoundTrip(sampleRate);
    DataRoundTrip(samples);
  }

  // ---------------------------------------------------------------------------
  // The buffer and the writer
  // ---------------------------------------------------------------------------

  function Zeros(n: nat): (z: seq<Byte>)
    ensures |z| == n && forall k :: 0 <= k < n ==> z[k] == 0
  {
    seq(n, k => 0)
  }

  /** Storing one byte at position `p`, first padding with zeros up to `p` when it lies past the end. */
  function Put(b: seq<Byte>, p: nat, x: Byte): (r: seq<Byte>)
    ensures |r| == if p < |b| then |b| else p + 1
    ensures r[p] == x
    ensures forall k :: 0 <= k < |r| && k != p ==> r[k] == if k < |b| then b[k] else 0
  {
    if p < |b| then b[p := x] else b + Zeros(p - |b|) + [x]
  }

  /** The contents after writing `d` at position `p`: its bytes are stored one after the other. */
  function Overwrite(b: seq<Byte>, p: nat, d: seq<Byte>): (r: seq<Byte>)
    ensures |r| == if d == [] || p + |d| <= |b| then |b| else p + |d|
    decreases |d|
  {
    if d == [] then b else Overwrite(Put(b, p, d[0]), p + 1, d[1..])
  }

  /**
   * What a write leaves: the written bytes from `p` on, the old bytes
   * elsewhere, zeros in any gap past the old end, and a length that grows
   * only as far as the write reaches. Writing nothing changes nothing.
   */
  lemma {:induction false} OverwriteBytes(b: seq<Byte>, p: nat, d: seq<Byte>)
    ensures var r := Overwrite(b, p, d);
      && (d == [] ==> r == b)
      && (d != [] ==> |r| == if p + |d| > |b| then p + |d| else |b|)
      && (forall k :: 0 <= k < |d| ==> r[p + k] == d[k])
      && (forall k :: 0 <= k < |r| && !(p <= k < p + |d|) ==> r[k] == if k < |b| then b[k] else 0)
    decreases |d|
  {
    if d != [] {
      var b1 := Put(b, p, d[0]);
      var r := Overwrite(b, p, d);
      OverwriteBytes(b1, p + 1, d[1..]);
      assert r == Overwrite(b1, p + 1, d[1..]);
      forall k | 0 <= k < |d| ensures r[p + k] == d[k] {
        if k > 0 {
          assert d[1..][k - 1] == d[k];
        }
      }
    }
  }

  /** Writing at the end appends. */
  lemma {:induction false} OverwriteAtEnd(b: seq<Byte>, d: seq<Byte>)
    ensures Overwrite(b, |b|, d) == b + d
    decreases |d|
  {
    if d != [] {
      assert Put(b, |b|, d[0]) == b + [d[0]];
      OverwriteAtEnd(b + [d[0]], d[1..]);
      assert b + [d[0]] + d[1..] == b + d;
    }
  }

  /** Writing inside the contents replaces exactly the bytes written over. */
  lemma {:induction false} OverwriteWithin(b: seq<Byte>, p: nat, d: seq<Byte>)
    requires p + |d| <= |b|
    ensures Overwrite(b, p, d) == b[..p] + d + b[p + |d|..]
  {
    OverwriteBytes(b, p, d);
    var r, e := Overwrite(b, p, d), b[..p] + d + b[p + |d|..];
    forall k | 0 <= k < |r|
      ensures r[k] == e[k]
    {
      if p <= k < p + |d| {
        assert r[p + (k - p)] == d[k - p];
      }
    }
  }

  /** `io.BytesIO`: a growable byte string with a current position. */
  class ByteBuffer {
    var bytes: seq<Byte>
    var pos: nat

    constructor ()
      ensures bytes == [] && pos == 0
    {
      bytes := [];
      pos := 0;
    }

    /** `write(data)`: overwrites from the position, then moves past what was written. */
    method Write(data: seq<Byte>)
      modifies this
      ensures old(pos) == |old(bytes)| ==> bytes == old(bytes) + data
      ensures old(pos) != |old(bytes)| ==> bytes == Overwrite(old(bytes), old(pos), data)
      ensures pos == old(pos) + |data|
    {
      if pos == |bytes| {
        OverwriteAtEnd(bytes, data);
      }
      bytes := Overwrite(bytes, pos, data);
      pos := pos + |data|;
    }

    /** `tell()`. */
    method Tell() returns (p: nat)
      ensures p == pos
    {
      p := pos;
    }

    /** `seek(p)`, from the start; seeking past the end is allowed. */
    method Seek(p: nat)
      modifies this
      ensures bytes == old(bytes) && pos == p
    {
      pos := p;
    }

    /** `read()`: everything from the position to the end, leaving the position at the end. */
    method Read() returns (data: seq<Byte>)
      modifies this
      ensures bytes == old(bytes)
      ensures old(pos) <= |bytes| ==> data == bytes[old(pos)..] && pos == |bytes|
      ensures old(pos) > |bytes| ==> data == [] && pos == old(pos)
    {
      if pos <= |bytes| {
        data := bytes[pos..];
        pos := |bytes|;
      } else {
        data := [];
      }
    }
  }

  lemma AppendAssoc(a: seq<Byte>, b: seq<Byte>, c: seq<Byte>)
    ensures a + b + c == a + (b + c)
  {
  }

  /** Writing the real size over the placeholder at offset 4 leaves every other byte as it was. */
  lemma {:induction false} Backpatch(size: seq<Byte>, fmt: seq<Byte>, data: seq<Byte>)
    requires |size| == 4
    ensures Overwrite(RIFF + U32LE(0) + WAVE + fmt + data, 4, size) == RIFF + size + WAVE + fmt + data
  {
    var b := RIFF + U32LE(0) + WAVE + fmt + data;
    OverwriteWithin(b, 4, size);
    var rest := WAVE + fmt + data;
    assert b[..4] == RIFF && b[8..] == rest;
    assert RIFF + size + rest == RIFF + size + WAVE + fmt + data;
  }

  /** The "format chunk" block of `generate_wav_file`: eight fields appended at the end of the buffer. */
  method WriteFormatChunk(buffer: ByteBuffer, sampleRate: int) returns (err: Option<PackError>)
    requires buffer.pos == |buffer.bytes|
    modifies buffer
    ensures err.None? <==> 0 <= sampleRate && 2 * sampleRate < U32_LIMIT
    ensures err.Some? && !(0 <= sampleRate < U32_LIMIT) ==> err.value == OutOfRange(sampleRate)
    ensures err.Some? && 0 <= sampleRate < U32_LIMIT ==> err.value == OutOfRange(sampleRate * 2)
    ensures err.None? ==> buffer.bytes == old(buffer.bytes) + FmtChunk(sampleRate) && buffer.pos == |buffer.bytes|
  {
    ghost var start := buffer.bytes;
    buffer.Write(FMT);
    buffer.Write(U32LE(16));
    buffer.Write(U16LE(1));
    buffer.Write(U16LE(1));
    ghost var chunk := FMT + U32LE(16) + U16LE(1) + U16LE(1);
    assert buffer.bytes == start + chunk;
    var rate := PackU32(sampleRate);
    if rate.Failure? {
      return Some(rate.error);
    }
    buffer.Write(rate.value);
    AppendAssoc(start, chunk, rate.value);
    chunk := chunk + rate.value;
    var byteRate := PackU32(sampleRate * 2);
    if byteRate.Failure? {
      return Some(byteRate.error);
    }
    buffer.Write(byteRate.value);
    AppendAssoc(start, chunk, byteRate.value);
    chunk := chunk + byteRate.value;
    buffer.Write(U16LE(2));
    AppendAssoc(start, chunk, U16LE(2));
    chunk := chunk + U16LE(2);
    buffer.Write(U16LE(16));
    AppendAssoc(start, chunk, U16LE(16));
    chunk := chunk + U16LE(16);
    assert chunk == FmtChunk(sampleRate);
    return None;
  }

  /** The "data chunk" block of `generate_wav_file`: tag, size and sample bytes appended at the end. */
  method WriteDataChunk(buffer: ByteBuffer, samples: seq<Int16>) returns (err: Option<PackError>)
    requires buffer.pos == |buffer.bytes|
    modifies buffer
    ensures err.None? <==> 2 * |samples| < U32_LIMIT
    ensures err.Some? ==> err.value == OutOfRange(2 * |samples|)
    ensures err.None? ==> buffer.bytes == old(buffer.bytes) + DataChunk(samples) && buffer.pos == |buffer.bytes|
  {
    ghost var start := buffer.bytes;
    buffer.Write(DATA);
    var data := SamplesLE(samples);
    var dataSize := PackU32(|data|);
    if dataSize.Failure? {
      return Some(dataSize.error);
    }
    buffer.Write(dataSize.value);
    AppendAssoc(start, DATA, dataSize.value);
    buffer.Write(data);
    AppendAssoc(start, DATA + dataSize.value, data);
    return None;
  }

  /**
   * `generate_wav_file` from its int16 samples up to the raw bytes: the
   * fields are written in order with a zero RIFF size, which is then patched
   * with the final length minus 8, and the buffer is read back from the start.
   */
  method GenerateWavFile(samples: seq<Int16>, sampleRate: int) returns (r: Result<seq<Byte>, PackError>)
    ensures r == WavFile(samples, sampleRate)
  {
    var buffer := new ByteBuffer();
    buffer.Write(RIFF);
    buffer.Write(U32LE(0));
    buffer.Write(WAVE);
    assert buffer.bytes == RIFF + U32LE(0) + WAVE;
    var fmtError := WriteFormatChunk(buffer, sampleRate);
    if fmtError.Some? {
      return Failure(fmtError.value);
    }
    var dataError := WriteDataChunk(buffer, samples);
    if dataError.Some? {
      return Failure(dataError.value);
    }
    var end := buffer.Tell();
    var fileSize := PackU32(end - 8);
    if fileSize.Failure? {
      return Failure(fileSize.error);
    }
    buffer.Seek(4);
    buffer.Write(fileSize.value);
    Backpatch(fileSize.value, FmtChunk(sampleRate), DataChunk(samples));
    buffer.Seek(0);
    var wav := buffer.Read();
    return Success(wav);
  }
}

/** The 44-byte RIFF/WAVE header written in front of the raw CD audio of a
    track: a `fmt ` chunk for 16-bit PCM stereo at 44.1 kHz and a `data`
    chunk holding the extracted sectors. All numeric fields are
    little-endian. */
module Wav {

  type Byte = x: nat | x < 256

  /** The source's `u32`. */
  type U32 = x: nat | x < 0x1_0000_0000

  const U32_MODULUS: nat := 0x1_0000_0000

  datatype Option<T> = None | Some(value: T)

  const HEADER_SIZE: nat := 44

  const RIFF_ID: seq<Byte> := [0x52, 0x49, 0x46, 0x46]  // "RIFF"
  const WAVE_ID: seq<Byte> := [0x57, 0x41, 0x56, 0x45]  // "WAVE"
  const FMT_ID: seq<Byte> := [0x66, 0x6d, 0x74, 0x20]   // "fmt "
  const DATA_ID: seq<Byte> := [0x64, 0x61, 0x74, 0x61]  // "data"

  const FMT_CHUNK_SIZE: U32 := 16
  const FORMAT_PCM: nat := 1
  const CHANNELS: nat := 2
  const SAMPLE_RATE: U32 := 44100
  const BLOCK_ALIGN: nat := 4
  const BIT_DEPTH: nat := 16

  /** The byte rate the source writes: sample rate times bytes per sample,
      leaving out the channel count (88200). */
  const AS_WRITTEN_BYTE_RATE: U32 := SAMPLE_RATE * BIT_DEPTH / 8

  /** The byte rate of 16-bit stereo at 44.1 kHz (176400). */
  const BYTE_RATE: U32 := SAMPLE_RATE * CHANNELS * BIT_DEPTH / 8

  /** Little-endian encoding of a 16-bit field. */
  function Le16(n: nat): (b: seq<Byte>)
    requires n < 0x1_0000
    ensures |b| == 2
  {
    [n % 256, n / 256]
  }

  /** Little-endian encoding of a 32-bit field. */
  function Le32(n: U32): (b: seq<Byte>)
    ensures |b| == 4
  {
    [n % 256, n / 256 % 256, n / 256 / 256 % 256, n / 256 / 256 / 256]
  }

  /** The 16-bit little-endian field at offset `i`. */
  function U16At(s: seq<Byte>, i: nat): nat
    requires i + 2 <= |s|
  {
    var b0: nat, b1: nat := s[i], s[i + 1];
    b0 + 256 * b1
  }

  /** The 32-bit little-endian field at offset `i`. */
  function U32At(s: seq<Byte>, i: nat): nat
    requires i + 4 <= |s|
  {
    var b0: nat, b1: nat, b2: nat, b3: nat := s[i], s[i + 1], s[i + 2], s[i + 3];
    b0 + 256 * (b1 + 256 * (b2 + 256 * b3))
  }

  lemma Le16Decodes(n: nat)
    requires n < 0x1_0000
    ensures U16At(Le16(n), 0) == n
  {
  }

  lemma Le32Decodes(n: U32)
    ensures U32At(Le32(n), 0) == n
  {
    var q1 := n / 256;
    var q2 := q1 / 256;
    var q3 := q2 / 256;
    assert n == n % 256 + 256 * q1;
    assert q1 == q1 % 256 + 256 * q2;
    assert q2 == q2 % 256 + 256 * q3;
  }

  /** The RIFF size field: the file size minus the 8 bytes of the RIFF chunk
      header, computed in 32-bit arithmetic that wraps. */
  function RiffSize(dataSize: U32): (n: U32)
    ensures dataSize + HEADER_SIZE - 8 < U32_MODULUS ==> n == dataSize + HEADER_SIZE - 8
    ensures dataSize + HEADER_SIZE - 8 >= U32_MODULUS ==> n == dataSize + HEADER_SIZE - 8 - U32_MODULUS
  {
    (dataSize + HEADER_SIZE - 8) % U32_MODULUS
  }

  /** The header layout with a given byte-rate field. */
  function Layout(dataSize: U32, byteRate: U32): (h: seq<Byte>)
    ensures |h| == HEADER_SIZE
    ensures h[..4] == RIFF_ID && h[4..8] == Le32(RiffSize(dataSize))
    ensures h[28..32] == Le32(byteRate) && h[40..] == Le32(dataSize)
  {
    RIFF_ID + Le32(RiffSize(dataSize)) + WAVE_ID
    + FMT_ID + Le32(FMT_CHUNK_SIZE) + Le16(FORMAT_PCM) + Le16(CHANNELS)
    + Le32(SAMPLE_RATE) + Le32(byteRate) + Le16(BLOCK_ALIGN) + Le16(BIT_DEPTH)
    + DATA_ID + Le32(dataSize)
  }

  /** The header as the source writes it. */
  function AsWrittenHeader(dataSize: U32): (h: seq<Byte>)
    ensures |h| == HEADER_SIZE && h[40..] == Le32(dataSize)
    ensures h[28..32] == Le32(88200)
  {
    Layout(dataSize, AS_WRITTEN_BYTE_RATE)
  }

  /** The header with the byte rate of the format it declares. */
  function Header(dataSize: U32): (h: seq<Byte>)
    ensures |h| == HEADER_SIZE && h[40..] == Le32(dataSize)
    ensures h[28..32] == Le32(176400)
  {
    Layout(dataSize, BYTE_RATE)
  }

  /** The fields of a canonical 44-byte PCM header. */
  datatype Fields = Fields(
    riffSize: nat, chunkSize: nat, format: nat, channels: nat, sampleRate: nat,
    byteRate: nat, blockAlign: nat, bitsPerSample: nat, dataSize: nat)

  /** Reads a canonical 44-byte header back: the four chunk identifiers must
      be in place; the numeric fields are decoded little-endian. */
  function Parse(h: seq<Byte>): (r: Option<Fields>)
    ensures r.Some? ==> |h| >= HEADER_SIZE && h[36..40] == DATA_ID && h[..4] == RIFF_ID
  {
    if |h| < HEADER_SIZE || h[..4] != RIFF_ID || h[8..12] != WAVE_ID
      || h[12..16] != FMT_ID || h[36..40] != DATA_ID
    then None
    else Some(Fields(
      U32At(h, 4), U32At(h, 16), U16At(h, 20), U16At(h, 22), U32At(h, 24),
      U32At(h, 28), U16At(h, 32), U16At(h, 34), U32At(h, 40)))
  }

  /** The consistency rules of a PCM `fmt ` chunk: a block is one sample of
      every channel, and the byte rate is one block per sample period. */
  predicate Coherent(f: Fields) {
    f.blockAlign * 8 == f.channels * f.bitsPerSample && f.byteRate == f.sampleRate * f.blockAlign
  }

  /** Reading back a header built with any byte rate gives every field that
      was written, in place. */
  lemma {:induction false} ParseLayout(dataSize: U32, byteRate: U32)
    ensures Parse(Layout(dataSize, byteRate)) == Some(Fields(
      RiffSize(dataSize), FMT_CHUNK_SIZE, FORMAT_PCM, CHANNELS, SAMPLE_RATE,
      byteRate, BLOCK_ALIGN, BIT_DEPTH, dataSize))
  {
    var h := Layout(dataSize, byteRate);
    var p4 := RIFF_ID + Le32(RiffSize(dataSize));
    var p12 := p4 + WAVE_ID + FMT_ID;
    var p20 := p12 + Le32(FMT_CHUNK_SIZE) + Le16(FORMAT_PCM) + Le16(CHANNELS);
    var p28 := p20 + Le32(SAMPLE_RATE);
    var p32 := p28 + Le32(byteRate);
    var p40 := p32 + Le16(BLOCK_ALIGN) + Le16(BIT_DEPTH) + DATA_ID;
    assert h == p40 + Le32(dataSize);
    assert h[..4] == RIFF_ID;
    assert h[4..8] == Le32(RiffSize(dataSize));
    assert h[8..12] == WAVE_ID;
    assert h[12..16] == FMT_ID;
    assert h[16..20] == Le32(FMT_CHUNK_SIZE);
    assert h[20..22] == Le16(FORMAT_PCM);
    assert h[22..24] == Le16(CHANNELS);
    assert h[24..28] == Le32(SAMPLE_RATE);
    assert h[28..32] == Le32(byteRate);
    assert h[32..34] == Le16(BLOCK_ALIGN);
    assert h[34..36] == Le16(BIT_DEPTH);
    assert h[36..40] == DATA_ID;
    assert h[40..44] == Le32(dataSize);
    Le32Decodes(RiffSize(dataSize));
    Le32Decodes(FMT_CHUNK_SIZE);
    Le32Decodes(SAMPLE_RATE);
    Le32Decodes(byteRate);
    Le32Decodes(dataSize);
    Le16Decodes(FORMAT_PCM);
    Le16Decodes(CHANNELS);
    Le16Decodes(BLOCK_ALIGN);
    Le16Decodes(BIT_DEPTH);
    assert U32At(h, 4) == U32At(h[4..8], 0);
    assert U32At(h, 16) == U32At(h[16..20], 0);
    assert U32At(h, 24) == U32At(h[24..28], 0);
    assert U32At(h, 28) == U32At(h[28..32], 0);
    assert U32At(h, 40) == U32At(h[40..44], 0);
    assert U16At(h, 20) == U16At(h[20..22], 0);
    assert U16At(h, 22) == U16At(h[22..24], 0);
    assert U16At(h, 32) == U16At(h[32..34], 0);
    assert U16At(h, 34) == U16At(h[34..36], 0);
  }

  /** The header the extraction writes declares `dataSize` bytes of data, and
      a RIFF size of the whole file minus 8 whenever that fits in 32 bits. */
  lemma HeaderDeclares(dataSize: U32)
    ensures Parse(Header(dataSize)).Some?
    ensures Parse(Header(dataSize)).value.dataSize == dataSize
    ensures dataSize + HEADER_SIZE - 8 < U32_MODULUS ==>
      Parse(Header(dataSize)).value.riffSize == dataSize + HEADER_SIZE - 8
    ensures Coherent(Parse(Header(dataSize)).value)
  {
    ParseLayout(dataSize, BYTE_RATE);
  }

  /** The header as written declares a byte rate of half what its own
      channel count, sample rate and bit depth imply. */
  lemma AsWrittenHeaderIncoherent(dataSize: U32)
    ensures Parse(AsWrittenHeader(dataSize)).Some?
    ensures Parse(AsWrittenHeader(dataSize)).value.byteRate == 88200
    ensures !Coherent(Parse(AsWrittenHeader(dataSize)).value)
  {
    ParseLayout(dataSize, AS_WRITTEN_BYTE_RATE);
  }

  /** The two headers differ only in the byte-rate field (bytes 28 to 31). */
  lemma HeadersDifferInByteRateOnly(dataSize: U32)
    ensures AsWrittenHeader(dataSize)[..28] == Header(dataSize)[..28]
    ensures AsWrittenHeader(dataSize)[32..] == Header(dataSize)[32..]
    ensures AsWrittenHeader(dataSize)[28..32] != Header(dataSize)[28..32]
  {
    Le32Decodes(AS_WRITTEN_BYTE_RATE);
    Le32Decodes(BYTE_RATE);
    assert AsWrittenHeader(dataSize)[28..32] == Le32(AS_WRITTEN_BYTE_RATE);
    assert Header(dataSize)[28..32] == Le32(BYTE_RATE);
  }
}

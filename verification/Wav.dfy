/** server/audio.py: the one WAV shape that is accepted. */
module Wav {
  import opened Basics

  type Byte = b: int | 0 <= b < 256

  const HEADER_BYTES := 44
  const SAMPLE_RATE := 16000
  const BYTE_RATE := 32000

  const RIFF: seq<Byte> := [82, 73, 70, 70]
  const WAVE: seq<Byte> := [87, 65, 86, 69]
  const FMT: seq<Byte> := [102, 109, 116, 32]
  const DATA: seq<Byte> := [100, 97, 116, 97]

  datatype WavError =
    | TooShort | NotRiff | RiffSizeMismatch | NotWave | NoFmtChunk | FmtSize | NotPcm | NotMono | BadSampleRate
    | BadByteRate | BadBlockAlign | BadBitsPerSample | NoDataChunk | DataSizeMismatch | NoData | Misaligned

  datatype WavInfo = WavInfo(duration: real, dataSize: nat)

  datatype WavResult = Accepted(info: WavInfo) | Rejected(error: WavError)

  // --------------------------------------------------------- little-endian fields

  /** `width` bytes, least significant first; what does not fit is lost. */
  function Encode(width: nat, n: nat): (bytes: seq<Byte>)
    ensures |bytes| == width
  {
    if width == 0 then [] else [n % 256] + Encode(width - 1, n / 256)
  }

  function Decode(bytes: seq<Byte>): nat {
    if bytes == [] then 0 else bytes[0] + 256 * Decode(bytes[1..])
  }

  function Power(width: nat): (p: nat)
    ensures p > 0
  {
    if width == 0 then 1 else 256 * Power(width - 1)
  }

  lemma {:induction false} DecodeEncode(width: nat, n: nat)
    requires n < Power(width)
    ensures Decode(Encode(width, n)) == n
  {
    if width > 0 {
      DecodeEncode(width - 1, n / 256);
      assert Encode(width, n)[1..] == Encode(width - 1, n / 256);
    }
  }

  lemma {:induction false} EncodeDecode(bytes: seq<Byte>)
    ensures Decode(bytes) < Power(|bytes|)
    ensures Encode(|bytes|, Decode(bytes)) == bytes
  {
    if bytes != [] {
      EncodeDecode(bytes[1..]);
      var d := Decode(bytes[1..]);
      assert Decode(bytes) % 256 == bytes[0] && Decode(bytes) / 256 == d;
    }
  }

  /** A field holds `n` exactly when its bytes are those of `n`. */
  lemma FieldIs(bytes: seq<Byte>, n: nat)
    requires n < Power(|bytes|)
    ensures Decode(bytes) == n <==> bytes == Encode(|bytes|, n)
  {
    EncodeDecode(bytes);
    DecodeEncode(|bytes|, n);
  }

  lemma Powers()
    ensures Power(2) == 0x1_0000 && Power(4) == 0x1_0000_0000
  {
    assert Power(1) == 256 && Power(2) == 256 * 256 && Power(3) == 256 * 256 * 256;
  }

  // ------------------------------------------------------------------ the reader

  function U16(file: seq<Byte>, at: nat): nat
    requires at + 2 <= |file|
  {
    Decode(file[at..at + 2])
  }

  function U32(file: seq<Byte>, at: nat): nat
    requires at + 4 <= |file|
  {
    Decode(file[at..at + 4])
  }

  /** `read_heliboard_wav_info`, check by check. */
  function ReadInfo(file: seq<Byte>): WavResult {
    if |file| < HEADER_BYTES then Rejected(TooShort)
    else if file[0..4] != RIFF then Rejected(NotRiff)
    else if U32(file, 4) != |file| - 8 then Rejected(RiffSizeMismatch)
    else if file[8..12] != WAVE then Rejected(NotWave)
    else if file[12..16] != FMT then Rejected(NoFmtChunk)
    else if U32(file, 16) != 16 then Rejected(FmtSize)
    else if U16(file, 20) != 1 then Rejected(NotPcm)
    else if U16(file, 22) != 1 then Rejected(NotMono)
    else if U32(file, 24) != SAMPLE_RATE then Rejected(BadSampleRate)
    else if U32(file, 28) != BYTE_RATE then Rejected(BadByteRate)
    else if U16(file, 32) != 2 then Rejected(BadBlockAlign)
    else if U16(file, 34) != 16 then Rejected(BadBitsPerSample)
    else if file[36..40] != DATA then Rejected(NoDataChunk)
    else if U32(file, 40) != |file| - HEADER_BYTES then Rejected(DataSizeMismatch)
    else if U32(file, 40) == 0 then Rejected(NoData)
    else if U32(file, 40) % 2 != 0 then Rejected(Misaligned)
    else Accepted(WavInfo(U32(file, 40) as real / BYTE_RATE as real, U32(file, 40)))
  }

  // ---------------------------------------------------------------- the one shape

  function FmtChunk(): (bytes: seq<Byte>)
    ensures |bytes| == 24
  {
    FMT + Encode(4, 16) + Encode(2, 1) + Encode(2, 1) + Encode(4, SAMPLE_RATE) + Encode(4, BYTE_RATE)
      + Encode(2, 2) + Encode(2, 16)
  }

  /** The canonical header for `n` bytes of samples. */
  function Header(n: nat): (bytes: seq<Byte>)
    ensures |bytes| == HEADER_BYTES
  {
    RIFF + Encode(4, n + 36) + WAVE + FmtChunk() + DATA + Encode(4, n)
  }

  /** The header byte by byte: 16-bit mono PCM at 16000 Hz, least significant bytes first. */
  lemma HeaderBytes(n: nat)
    ensures Header(n) == [82, 73, 70, 70] + Encode(4, n + 36) + [87, 65, 86, 69]
      + [102, 109, 116, 32, 16, 0, 0, 0, 1, 0, 1, 0, 128, 62, 0, 0, 0, 125, 0, 0, 2, 0, 16, 0]
      + [100, 97, 116, 97] + Encode(4, n)
  {
    hide Encode, FmtChunk;
    FmtBytes();
  }

  lemma FmtBytes()
    ensures FmtChunk() == [102, 109, 116, 32, 16, 0, 0, 0, 1, 0, 1, 0, 128, 62, 0, 0, 0, 125, 0, 0, 2, 0, 16, 0]
  {
    hide Encode;
    Bytes2(1);
    Bytes2(2);
    Bytes2(16);
    Bytes4(16);
    Bytes4(16000);
    Bytes4(32000);
  }

  lemma Bytes2(n: nat)
    ensures Encode(2, n) == [n % 256, n / 256 % 256]
  {
    assert Encode(1, n / 256) == [n / 256 % 256] + Encode(0, n / 256 / 256);
  }

  lemma Bytes4(n: nat)
    ensures Encode(4, n) == [n % 256, n / 256 % 256, n / 256 / 256 % 256, n / 256 / 256 / 256 % 256]
  {
    Bytes2(n / 256 / 256);
    assert Encode(3, n / 256) == [n / 256 % 256] + Encode(2, n / 256 / 256);
  }

  predicate Canonical(file: seq<Byte>) {
    exists n: nat ::
      && 0 < n && n % 2 == 0 && n + 36 < 0x1_0000_0000
      && |file| == HEADER_BYTES + n && file[..HEADER_BYTES] == Header(n)
  }

  /** `part` lies in the file from `at` on. */
  predicate At(file: seq<Byte>, at: nat, part: seq<Byte>)
    requires at + |part| <= |file|
  {
    file[at..at + |part|] == part
  }

  /** Two parts lie one behind the other exactly when each lies in its place. */
  lemma Split(file: seq<Byte>, at: nat, a: seq<Byte>, b: seq<Byte>)
    requires at + |a| + |b| <= |file|
    ensures At(file, at, a + b) <==> At(file, at, a) && At(file, at + |a|, b)
  {
    AtEach(file, at, a);
    AtEach(file, at + |a|, b);
    AtEach(file, at, a + b);
    if At(file, at, a + b) {
      forall k | 0 <= k < |b|
        ensures file[at + |a| + k] == b[k]
      {
        assert (a + b)[|a| + k] == b[k];
      }
    }
  }

  lemma AtEach(file: seq<Byte>, at: nat, part: seq<Byte>)
    requires at + |part| <= |file|
    ensures At(file, at, part) <==> forall k | 0 <= k < |part| :: file[at + k] == part[k]
  {
    var slice := file[at..at + |part|];
    assert forall k | 0 <= k < |part| :: slice[k] == file[at + k];
  }

  /** The header at the start of a file, cut into its fields. */
  lemma Fields(file: seq<Byte>, n: nat)
    requires |file| >= HEADER_BYTES
    ensures file[..HEADER_BYTES] == Header(n) <==>
      && file[0..4] == RIFF && file[4..8] == Encode(4, n + 36) && file[8..12] == WAVE
      && At(file, 12, FmtChunk())
      && file[36..40] == DATA && file[40..44] == Encode(4, n)
  {
    hide Encode, FmtChunk;
    var a := RIFF + Encode(4, n + 36);
    var b := a + WAVE;
    var c := b + FmtChunk();
    Split(file, 0, RIFF, Encode(4, n + 36));
    Split(file, 0, a, WAVE);
    Split(file, 0, b, FmtChunk());
    Split(file, 0, c, DATA);
    Split(file, 0, c + DATA, Encode(4, n));
    assert file[..HEADER_BYTES] == file[0..HEADER_BYTES];
  }

  lemma FmtIs(file: seq<Byte>)
    requires |file| >= HEADER_BYTES
    ensures At(file, 12, FmtChunk()) <==>
      && file[12..16] == FMT && U32(file, 16) == 16 && U16(file, 20) == 1 && U16(file, 22) == 1
      && U32(file, 24) == SAMPLE_RATE && U32(file, 28) == BYTE_RATE && U16(file, 32) == 2 && U16(file, 34) == 16
  {
    hide Encode, Decode, Power;
    FmtFields(file);
    Powers();
    FieldIs(file[16..20], 16);
    FieldIs(file[20..22], 1);
    FieldIs(file[22..24], 1);
    FieldIs(file[24..28], SAMPLE_RATE);
    FieldIs(file[28..32], BYTE_RATE);
    FieldIs(file[32..34], 2);
    FieldIs(file[34..36], 16);
  }

  lemma FmtFields(file: seq<Byte>)
    requires |file| >= HEADER_BYTES
    ensures At(file, 12, FmtChunk()) <==>
      && file[12..16] == FMT && file[16..20] == Encode(4, 16) && file[20..22] == Encode(2, 1)
      && file[22..24] == Encode(2, 1) && file[24..28] == Encode(4, SAMPLE_RATE)
      && file[28..32] == Encode(4, BYTE_RATE) && file[32..34] == Encode(2, 2) && file[34..36] == Encode(2, 16)
  {
    hide Encode;
    var a := FMT + Encode(4, 16);
    var b := a + Encode(2, 1);
    var c := b + Encode(2, 1);
    var d := c + Encode(4, SAMPLE_RATE);
    var e := d + Encode(4, BYTE_RATE);
    Split(file, 12, FMT, Encode(4, 16));
    Split(file, 12, a, Encode(2, 1));
    Split(file, 12, b, Encode(2, 1));
    Split(file, 12, c, Encode(4, SAMPLE_RATE));
    Split(file, 12, d, Encode(4, BYTE_RATE));
    Split(file, 12, e, Encode(2, 2));
    Split(file, 12, e + Encode(2, 2), Encode(2, 16));
  }

  /** The reader accepts a file exactly when it is the canonical header for the bytes that follow,
      and those are some whole 16-bit samples whose size fits the header; it then reports that
      size and its duration at 32000 bytes a second. */
  lemma AcceptsExactlyCanonical(file: seq<Byte>)
    ensures ReadInfo(file).Accepted? <==> Canonical(file)
    ensures ReadInfo(file).Accepted? ==>
      ReadInfo(file).info == WavInfo((|file| - HEADER_BYTES) as real / 32000.0, |file| - HEADER_BYTES)
  {
    hide Encode, Decode, Power, FmtChunk, Header;
    if |file| >= HEADER_BYTES {
      var n := |file| - HEADER_BYTES;
      Fields(file, n);
      FmtIs(file);
      Powers();
      EncodeDecode(file[4..8]);
      EncodeDecode(file[40..44]);
      if n + 36 < 0x1_0000_0000 {
        FieldIs(file[4..8], n + 36);
        FieldIs(file[40..44], n);
      }
    }
  }

  /** Writing samples behind their header and reading the file gives their size and duration. */
  lemma BuildThenRead(samples: seq<Byte>)
    requires samples != [] && |samples| % 2 == 0 && |samples| + 36 < 0x1_0000_0000
    ensures ReadInfo(Header(|samples|) + samples) == Accepted(WavInfo(|samples| as real / 32000.0, |samples|))
  {
    hide Header, ReadInfo;
    var file := Header(|samples|) + samples;
    assert file[..HEADER_BYTES] == Header(|samples|);
    AcceptsExactlyCanonical(file);
  }
}

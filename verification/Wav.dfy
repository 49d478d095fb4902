/** The canonical 44-byte-header WAV: printer, strict header parser, reader, and byte-range windowing. */
module Wav {
  import opened Common

  type Byte = b: int | 0 <= b < 256

  /** A signed 16-bit sample. */
  type Sample = s: int | -32768 <= s < 32768

  const SAMPLE_RATE := 16000
  const SAMPLE_WIDTH := 2
  const CHANNELS := 1
  const WAV_HEADER_BYTES := 44
  const U32_LIMIT := 0x1_0000_0000

  const RIFF: seq<Byte> := [0x52, 0x49, 0x46, 0x46]
  const WAVE: seq<Byte> := [0x57, 0x41, 0x56, 0x45]
  const FMT: seq<Byte> := [0x66, 0x6D, 0x74, 0x20]
  const DATA: seq<Byte> := [0x64, 0x61, 0x74, 0x61]

  // ------------------------------------------------------------------ little-endian integers

  function Le16(n: int): seq<Byte>
    requires 0 <= n < 0x1_0000
  {
    [n % 256, n / 256]
  }

  function Le32(n: int): seq<Byte>
    requires 0 <= n < U32_LIMIT
  {
    Le16(n % 0x1_0000) + Le16(n / 0x1_0000)
  }

  function U16(bs: seq<Byte>, at: nat): int
    requires at + 2 <= |bs|
  {
    var low: int, high: int := bs[at], bs[at + 1];
    low + 256 * high
  }

  function U32(bs: seq<Byte>, at: nat): int
    requires at + 4 <= |bs|
  {
    U16(bs, at) + 0x1_0000 * U16(bs, at + 2)
  }

  lemma U16Exactly(bs: seq<Byte>, at: nat, n: int)
    requires at + 2 <= |bs| && 0 <= n < 0x1_0000
    ensures U16(bs, at) == n <==> bs[at..at + 2] == Le16(n)
  {
  }

  lemma U32Exactly(bs: seq<Byte>, at: nat, n: int)
    requires at + 4 <= |bs| && 0 <= n < U32_LIMIT
    ensures U32(bs, at) == n <==> bs[at..at + 4] == Le32(n)
  {
    U16Exactly(bs, at, n % 0x1_0000);
    U16Exactly(bs, at + 2, n / 0x1_0000);
    assert bs[at..at + 4] == bs[at..at + 2] + bs[at + 2..at + 4];
    if bs[at..at + 4] == Le32(n) {
      assert bs[at..at + 2] == Le32(n)[..2] && bs[at + 2..at + 4] == Le32(n)[2..];
    }
  }

  // ------------------------------------------------------------------ samples

  function EncodeSample(s: Sample): seq<Byte> { Le16(s % 0x1_0000) }

  function DecodeSample(bs: seq<Byte>, at: nat): Sample
    requires at + 2 <= |bs|
  {
    var u := U16(bs, at);
    if u >= 0x8000 then u - 0x1_0000 else u
  }

  /** `tobytes` of a `<i2` array. */
  function Pcm(xs: seq<Sample>): (bs: seq<Byte>)
    ensures |bs| == 2 * |xs|
  {
    if xs == [] then [] else EncodeSample(xs[0]) + Pcm(xs[1..])
  }

  /** `np.frombuffer(raw, dtype="<i2")`, which refuses an odd number of bytes. */
  function FromBuffer(bs: seq<Byte>): Result<seq<Sample>, string> {
    if |bs| % 2 == 1 then Err("buffer size must be a multiple of element size") else Ok(Decoded(bs))
  }

  function Decoded(bs: seq<Byte>): (xs: seq<Sample>)
    ensures |xs| == |bs| / 2
    ensures forall i :: 0 <= i < |xs| ==> xs[i] == DecodeSample(bs, 2 * i)
  {
    seq(|bs| / 2, i requires 0 <= i < |bs| / 2 => DecodeSample(bs, 2 * i))
  }

  lemma {:induction false} PcmAt(xs: seq<Sample>, i: nat)
    requires i < |xs|
    ensures DecodeSample(Pcm(xs), 2 * i) == xs[i]
  {
    var rest := Pcm(xs[1..]);
    assert Pcm(xs)[2..] == rest;
    if i > 0 {
      PcmAt(xs[1..], i - 1);
      assert Pcm(xs)[2 * i] == rest[2 * (i - 1)] && Pcm(xs)[2 * i + 1] == rest[2 * (i - 1) + 1];
    }
  }

  lemma DecodeSame(a: seq<Byte>, i: nat, b: seq<Byte>, j: nat)
    requires i + 2 <= |a| && j + 2 <= |b| && a[i] == b[j] && a[i + 1] == b[j + 1]
    ensures DecodeSample(a, i) == DecodeSample(b, j)
  {
  }

  lemma PcmRoundTrip(xs: seq<Sample>)
    ensures FromBuffer(Pcm(xs)) == Ok(xs)
  {
    forall i | 0 <= i < |xs| ensures Decoded(Pcm(xs))[i] == xs[i] { PcmAt(xs, i); }
    assert Decoded(Pcm(xs)) == xs;
  }

  lemma AfterHead<T>(a: seq<T>, b: seq<T>)
    ensures (a + b)[|a|..|a| + |b|] == b
  {
  }

  // ------------------------------------------------------------------ header

  /** Bytes 8 to 28: RIFF type, `fmt ` chunk head, format, channels, rate. */
  const FORMAT: seq<Byte> := WAVE + FMT + Le32(16) + Le16(1) + Le16(CHANNELS) + Le32(SAMPLE_RATE)

  /** Bytes 34 to 40: bits per sample and the `data` tag. */
  const BITS_AND_DATA: seq<Byte> := Le16(SAMPLE_WIDTH * 8) + DATA

  /** The header Python's `wave` writes for `size` data bytes of 16 kHz mono signed 16-bit PCM. */
  function Header(size: int): (h: seq<Byte>)
    requires 0 <= size && 36 + size < U32_LIMIT
    ensures |h| == WAV_HEADER_BYTES
  {
    RIFF + Le32(36 + size) + FORMAT
    + Le32(CHANNELS * SAMPLE_RATE * SAMPLE_WIDTH) + Le16(CHANNELS * SAMPLE_WIDTH) + BITS_AND_DATA + Le32(size)
  }

  /** `write_canonical_wav`: packing a size that does not fit 32 bits raises. */
  function WriteCanonicalWav(xs: seq<Sample>): Result<seq<Byte>, string> {
    var size := SAMPLE_WIDTH * |xs|;
    if 36 + size >= U32_LIMIT then Err("data too large for a RIFF header") else Ok(Header(size) + Pcm(xs))
  }

  datatype Info = Info(fmtSize: int, audioFormat: int, channels: int, sampleRate: int, bits: int, dataSize: int)

  /** `parse_wav_header`. */
  function ParseWavHeader(h: seq<Byte>): Result<Info, string> {
    if |h| < WAV_HEADER_BYTES then Err("header too short")
    else if h[0..4] != RIFF || h[8..12] != WAVE then Err("not a RIFF/WAVE stream")
    else if h[12..16] != FMT then Err("first subchunk is not fmt")
    else if h[36..40] != DATA then Err("data chunk not at offset 36")
    else Ok(Info(U32(h, 16), U16(h, 20), U16(h, 22), U32(h, 24), U16(h, 34), U32(h, 40)))
  }

  /** `validate_canonical_riff`. */
  predicate ValidCanonicalRiff(info: Info) {
    && info.fmtSize == 16
    && info.audioFormat == 1
    && info.channels == CHANNELS
    && info.sampleRate == SAMPLE_RATE
    && info.bits == SAMPLE_WIDTH * 8
  }

  predicate Accepted(h: seq<Byte>) { ParseWavHeader(h).Ok? && ValidCanonicalRiff(ParseWavHeader(h).value) }

  /** The bytes no check looks at: the RIFF size, the byte rate and the block alignment. */
  predicate Unread(i: int) { 4 <= i < 8 || 28 <= i < 34 }

  /** `h` is the header the writer makes for `size` bytes, up to the unread bytes. */
  predicate LooksLike(h: seq<Byte>, size: int)
    requires |h| >= WAV_HEADER_BYTES
  {
    && 0 <= size < U32_LIMIT
    && h[0..4] == RIFF && h[8..28] == FORMAT && h[34..40] == BITS_AND_DATA && h[40..44] == Le32(size)
  }

  lemma SubSlice<T>(s: seq<T>, lo: nat, hi: nat, a: nat, b: nat)
    requires lo <= hi <= |s| && a <= b && lo + b <= hi
    ensures s[lo..hi][a..b] == s[lo + a..lo + b]
  {
    var inner := s[lo..hi];
    forall i | a <= i < b ensures inner[i] == s[lo + i] {}
  }

  lemma FieldsOfFormat(h: seq<Byte>)
    requires |h| >= WAV_HEADER_BYTES
    ensures h[8..28] == FORMAT <==> (
      && h[8..12] == WAVE && h[12..16] == FMT && h[16..20] == Le32(16)
      && h[20..22] == Le16(1) && h[22..24] == Le16(CHANNELS) && h[24..28] == Le32(SAMPLE_RATE))
    ensures h[34..40] == BITS_AND_DATA <==> h[34..36] == Le16(SAMPLE_WIDTH * 8) && h[36..40] == DATA
  {
    assert h[8..28] == h[8..12] + h[12..16] + h[16..20] + h[20..22] + h[22..24] + h[24..28];
    assert h[34..40] == h[34..36] + h[36..40];
    var f, d := FORMAT, BITS_AND_DATA;
    assert f[0..4] == WAVE && f[4..8] == FMT && f[8..12] == Le32(16);
    assert f[12..14] == Le16(1) && f[14..16] == Le16(CHANNELS) && f[16..20] == Le32(SAMPLE_RATE);
    assert d[0..2] == Le16(SAMPLE_WIDTH * 8) && d[2..6] == DATA;
    SubSlice(h, 8, 28, 0, 4);
    SubSlice(h, 8, 28, 4, 8);
    SubSlice(h, 8, 28, 8, 12);
    SubSlice(h, 8, 28, 12, 14);
    SubSlice(h, 8, 28, 14, 16);
    SubSlice(h, 8, 28, 16, 20);
    SubSlice(h, 34, 40, 0, 2);
    SubSlice(h, 34, 40, 2, 6);
  }

  /** The parser and the validator together accept exactly the canonical layout, and read back its data size. */
  lemma AcceptedExactly(h: seq<Byte>, size: int)
    ensures Accepted(h) && ParseWavHeader(h).value.dataSize == size <==> |h| >= WAV_HEADER_BYTES && LooksLike(h, size)
  {
    if |h| >= WAV_HEADER_BYTES {
      FieldsOfFormat(h);
      U32Exactly(h, 16, 16);
      U16Exactly(h, 20, 1);
      U16Exactly(h, 22, CHANNELS);
      U32Exactly(h, 24, SAMPLE_RATE);
      U16Exactly(h, 34, SAMPLE_WIDTH * 8);
      if 0 <= size < U32_LIMIT { U32Exactly(h, 40, size); }
    }
  }

  lemma HeaderLayout(size: int)
    requires 0 <= size && 36 + size < U32_LIMIT
    ensures LooksLike(Header(size), size)
    ensures Header(size)[4..8] == Le32(36 + size)
  {
  }

  /** Agreeing with a written header on every byte that is read is what makes a header acceptable. */
  lemma HeaderBytesExactly(h: seq<Byte>, size: int)
    requires |h| >= WAV_HEADER_BYTES && 0 <= size && 36 + size < U32_LIMIT
    ensures LooksLike(h, size) <==> forall i :: 0 <= i < WAV_HEADER_BYTES && !Unread(i) ==> h[i] == Header(size)[i]
  {
    var g := Header(size);
    HeaderLayout(size);
    if LooksLike(h, size) {
      forall i | 0 <= i < WAV_HEADER_BYTES && !Unread(i) ensures h[i] == g[i] { SameAt(h, g, size, i); }
    }
    if forall i :: 0 <= i < WAV_HEADER_BYTES && !Unread(i) ==> h[i] == g[i] { SameBytesLookAlike(h, g, size); }
  }

  lemma SameBytesLookAlike(h: seq<Byte>, g: seq<Byte>, size: int)
    requires |h| >= WAV_HEADER_BYTES && |g| >= WAV_HEADER_BYTES && LooksLike(g, size)
    requires forall i :: 0 <= i < WAV_HEADER_BYTES && !Unread(i) ==> h[i] == g[i]
    ensures LooksLike(h, size)
  {
    assert h[0..4] == g[0..4] && h[8..28] == g[8..28] && h[34..40] == g[34..40] && h[40..44] == g[40..44];
  }

  lemma SameAt(h: seq<Byte>, g: seq<Byte>, size: int, i: nat)
    requires |h| >= WAV_HEADER_BYTES && |g| >= WAV_HEADER_BYTES && LooksLike(h, size) && LooksLike(g, size)
    requires i < WAV_HEADER_BYTES && !Unread(i)
    ensures h[i] == g[i]
  {
    if i < 4 {
      assert h[0..4][i] == g[0..4][i];
    } else if i < 28 {
      assert h[8..28][i - 8] == g[8..28][i - 8];
    } else if i < 40 {
      assert h[34..40][i - 34] == g[34..40][i - 34];
    } else {
      assert h[40..44][i - 40] == g[40..44][i - 40];
    }
  }

  // ------------------------------------------------------------------ reading back

  /** The three parameters `read_canonical_wav` compares. */
  predicate CanonicalFormat(info: Info) {
    info.sampleRate == SAMPLE_RATE && info.channels == CHANNELS && (info.bits + 7) / 8 == SAMPLE_WIDTH
  }

  /** `read_canonical_wav` of a file in the canonical layout. */
  function ReadCanonicalWav(file: seq<Byte>): Result<seq<Sample>, string> {
    var info := ParseWavHeader(file);
    if info.Err? then Err(info.error)
    else if !CanonicalFormat(info.value) then Err("not canonical 16 kHz mono s16le")
    else ReadFrames(file, info.value.dataSize / SAMPLE_WIDTH)
  }

  /** `np.frombuffer(w.readframes(n))`: as many of the frames as the file holds. */
  function ReadFrames(file: seq<Byte>, n: int): Result<seq<Sample>, string>
    requires |file| >= WAV_HEADER_BYTES && 0 <= n
  {
    var end := WAV_HEADER_BYTES + SAMPLE_WIDTH * n;
    FromBuffer(file[WAV_HEADER_BYTES..if end <= |file| then end else |file|])
  }

  /** An accepted 44-byte header announcing `size` data bytes. */
  predicate HeaderFor(h: seq<Byte>, size: int) {
    |h| == WAV_HEADER_BYTES && Accepted(h) && ParseWavHeader(h).value.dataSize == size
  }

  lemma WrittenHeader(size: int)
    requires 0 <= size && 36 + size < U32_LIMIT
    ensures HeaderFor(Header(size), size)
  {
    HeaderLayout(size);
    AcceptedExactly(Header(size), size);
  }

  lemma WithDataAccepted(h: seq<Byte>, data: seq<Byte>, size: int)
    requires HeaderFor(h, size)
    ensures Accepted(h + data) && ParseWavHeader(h + data).value.dataSize == size
  {
    AcceptedExactly(h, size);
    SameBytesLookAlike(h + data, h, size);
    AcceptedExactly(h + data, size);
  }

  lemma FramesReadBack(h: seq<Byte>, data: seq<Byte>, n: nat)
    requires |h| == WAV_HEADER_BYTES && |data| == 2 * n
    ensures ReadFrames(h + data, n) == FromBuffer(data)
  {
    AfterHead(h, data);
  }

  lemma ReadOfAccepted(file: seq<Byte>, n: nat)
    requires Accepted(file) && ParseWavHeader(file).value.dataSize == 2 * n
    ensures ReadCanonicalWav(file) == ReadFrames(file, n)
  {
  }

  lemma ReadsBack(h: seq<Byte>, xs: seq<Sample>)
    requires HeaderFor(h, 2 * |xs|)
    ensures ReadCanonicalWav(h + Pcm(xs)) == Ok(xs)
  {
    WithDataAccepted(h, Pcm(xs), 2 * |xs|);
    ReadOfAccepted(h + Pcm(xs), |xs|);
    FramesReadBack(h, Pcm(xs), |xs|);
    PcmRoundTrip(xs);
  }

  /** The round trip: a sample sequence can be written exactly when its RIFF size fits 32 bits, and then the
    * file parses, validates and reads back to the same samples. */
  lemma WavRoundTrip(xs: seq<Sample>)
    ensures WriteCanonicalWav(xs).Ok? <==> 36 + 2 * |xs| < U32_LIMIT
    ensures WriteCanonicalWav(xs).Ok? ==>
      var file := WriteCanonicalWav(xs).value;
      && Accepted(file)
      && |file| == WAV_HEADER_BYTES + ParseWavHeader(file).value.dataSize
      && ReadCanonicalWav(file) == Ok(xs)
  {
    if 36 + 2 * |xs| < U32_LIMIT {
      WrittenHeader(2 * |xs|);
      WithDataAccepted(Header(2 * |xs|), Pcm(xs), 2 * |xs|);
      ReadsBack(Header(2 * |xs|), xs);
    }
  }

  // ------------------------------------------------------------------ byte ranges

  /** `range_get` against a server that holds `file`: a 206 with the exact Content-Range arrives only for a
    * valid, satisfiable range that the file holds whole; a reversed or negative range is not a valid
    * byte-range specifier (section 14.1.2 of RFC 9110), and a range past the end is shortened
    * (section 14.4), which the exact comparison refuses. */
  function RangeGet(file: seq<Byte>, start: int, length: int): Result<seq<Byte>, string> {
    var end := start + length - 1;
    if !(0 <= start <= end && start < |file|) then Err("expected 206 Partial Content")
    else
      var last := if end < |file| then end else |file| - 1;
      if last != end then Err("Content-Range mismatch")
      else
        var data := file[start..last + 1];
        if |data| != length then Err("short read") else Ok(data)
  }

  lemma RangeGetExactly(file: seq<Byte>, start: int, length: int)
    ensures RangeGet(file, start, length).Ok? <==> 0 <= start && 0 < length && start + length <= |file|
    ensures RangeGet(file, start, length).Ok? ==> RangeGet(file, start, length).value == file[start..start + length]
  {
  }

  /** `fetch_ami_window` for a window of `frames` frames at frame `offset`. */
  function FetchAmiWindow(file: seq<Byte>, offset: int, frames: int): Result<seq<Sample>, string> {
    var head := RangeGet(file, 0, WAV_HEADER_BYTES);
    if head.Err? then Err(head.error)
    else
      var info := ParseWavHeader(head.value);
      if info.Err? then Err(info.error)
      else if !ValidCanonicalRiff(info.value) then Err("non-canonical RIFF header")
      else
        var start := WAV_HEADER_BYTES + offset * SAMPLE_WIDTH * CHANNELS;
        var length := frames * SAMPLE_WIDTH * CHANNELS;
        if start + length > WAV_HEADER_BYTES + info.value.dataSize then Err("window exceeds data")
        else
          var data := RangeGet(file, start, length);
          if data.Err? then Err(data.error) else FromBuffer(data.value)
  }

  /** The samples a file holds after its header, as far as it goes. */
  function Audio(file: seq<Byte>): seq<Sample>
    requires |file| >= WAV_HEADER_BYTES
  {
    Decoded(file[WAV_HEADER_BYTES..])
  }

  lemma FetchUnfolds(file: seq<Byte>, offset: int, frames: int)
    ensures FetchAmiWindow(file, offset, frames).Ok? <==>
      && |file| >= WAV_HEADER_BYTES && Accepted(file[0..WAV_HEADER_BYTES])
      && 2 * (offset + frames) <= ParseWavHeader(file[0..WAV_HEADER_BYTES]).value.dataSize
      && 0 < frames && 0 <= 44 + 2 * offset && 44 + 2 * (offset + frames) <= |file|
    ensures FetchAmiWindow(file, offset, frames).Ok? ==>
      FetchAmiWindow(file, offset, frames).value == Decoded(file[44 + 2 * offset..44 + 2 * (offset + frames)])
  {
    RangeGetExactly(file, 0, WAV_HEADER_BYTES);
    RangeGetExactly(file, WAV_HEADER_BYTES + 2 * offset, 2 * frames);
  }

  lemma WindowOfAudio(file: seq<Byte>, offset: nat, frames: nat)
    requires 44 + 2 * (offset + frames) <= |file|
    ensures offset + frames <= |Audio(file)|
    ensures Decoded(file[44 + 2 * offset..44 + 2 * (offset + frames)]) == Audio(file)[offset..offset + frames]
  {
    var part, data := file[44 + 2 * offset..44 + 2 * (offset + frames)], file[WAV_HEADER_BYTES..];
    forall i | 0 <= i < frames ensures Decoded(part)[i] == Audio(file)[offset + i] {
      DecodeSame(part, 2 * i, data, 2 * (offset + i));
    }
  }

  /** Fetching a window of any file whatever, truncated or odd-sized ones included. The fetch succeeds exactly
    * when the header is accepted, the window is not empty, ends inside the announced data and inside the file,
    * and its first byte is in the file; for an offset that is not negative the result is exactly the window of
    * the file's samples. */
  lemma FetchDecodesWindow(file: seq<Byte>, offset: int, frames: int)
    ensures FetchAmiWindow(file, offset, frames).Ok? <==>
      && |file| >= WAV_HEADER_BYTES && Accepted(file[0..WAV_HEADER_BYTES])
      && 2 * (offset + frames) <= ParseWavHeader(file[0..WAV_HEADER_BYTES]).value.dataSize
      && 0 < frames && -22 <= offset && 44 + 2 * (offset + frames) <= |file|
    ensures FetchAmiWindow(file, offset, frames).Ok? && 0 <= offset ==>
      && offset + frames <= |Audio(file)|
      && FetchAmiWindow(file, offset, frames).value == Audio(file)[offset..offset + frames]
  {
    FetchUnfolds(file, offset, frames);
    if FetchAmiWindow(file, offset, frames).Ok? && 0 <= offset { WindowOfAudio(file, offset, frames); }
  }

  lemma SampleOfPcm(file: seq<Byte>, pcm: seq<Byte>, i: nat)
    requires |file| >= WAV_HEADER_BYTES + |pcm| && 2 * i + 2 <= |pcm|
    requires forall k :: 0 <= k < |pcm| ==> file[WAV_HEADER_BYTES + k] == pcm[k]
    ensures Audio(file)[i] == DecodeSample(pcm, 2 * i)
  {
    DecodeSame(file[WAV_HEADER_BYTES..], 2 * i, pcm, 2 * i);
  }

  /** A file that holds the encoded samples `xs` right after its header has them as its first samples. */
  lemma AudioOfPcm(file: seq<Byte>, xs: seq<Sample>)
    requires |file| >= WAV_HEADER_BYTES + 2 * |xs|
    requires file[WAV_HEADER_BYTES..WAV_HEADER_BYTES + 2 * |xs|] == Pcm(xs)
    ensures |xs| <= |Audio(file)|
    ensures forall i :: 0 <= i < |xs| ==> Audio(file)[i] == xs[i]
  {
    var pcm := file[WAV_HEADER_BYTES..WAV_HEADER_BYTES + 2 * |xs|];
    forall i | 0 <= i < |xs| ensures Audio(file)[i] == xs[i] {
      SampleOfPcm(file, pcm, i);
      PcmAt(xs, i);
    }
  }

  lemma SameSlice<T>(s: seq<T>, xs: seq<T>, a: nat, m: nat)
    requires |xs| <= |s| && (forall i :: 0 <= i < |xs| ==> s[i] == xs[i]) && a + m <= |xs|
    ensures s[a..a + m] == xs[a..a + m]
  {
  }

  /** A successful fetch from a file whose data is the encoded samples `xs`: the window of `xs`. */
  lemma FetchOfComplete(file: seq<Byte>, xs: seq<Sample>, offset: nat, frames: nat)
    requires |file| >= WAV_HEADER_BYTES + 2 * |xs| && offset + frames <= |xs|
    requires file[WAV_HEADER_BYTES..WAV_HEADER_BYTES + 2 * |xs|] == Pcm(xs)
    ensures FetchAmiWindow(file, offset, frames).Ok? ==>
      FetchAmiWindow(file, offset, frames).value == xs[offset..offset + frames]
  {
    var fetched := FetchAmiWindow(file, offset, frames);
    if fetched.Ok? {
      assert fetched.value == Audio(file)[offset..offset + frames] by { FetchDecodesWindow(file, offset, frames); }
      AudioOfPcm(file, xs);
      SameSlice(Audio(file), xs, offset, frames);
    }
  }

  /** A negative offset that reaches the request reads header bytes: its first sample is decoded from the header. */
  lemma FetchReadsHeader(file: seq<Byte>, offset: int, frames: int)
    requires offset < 0 && FetchAmiWindow(file, offset, frames).Ok?
    ensures -22 <= offset && |file| >= WAV_HEADER_BYTES
    ensures FetchAmiWindow(file, offset, frames).value[0] == DecodeSample(file[0..WAV_HEADER_BYTES], 44 + 2 * offset)
  {
    FetchUnfolds(file, offset, frames);
    DecodeSame(file[44 + 2 * offset..44 + 2 * (offset + frames)], 0, file[0..WAV_HEADER_BYTES], 44 + 2 * offset);
  }
}

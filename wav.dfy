/**
 * audioBufferToWav (js/app.js): a rendered buffer as a 16-bit PCM WAV file.
 * The 44-byte header carries the RIFF, fmt and data chunk fields in
 * little-endian order, each number wrapped to its field width as DataView's
 * setUint32/setUint16 do; the samples follow frame by frame, each channel's
 * sample clamped to [-1, 1], scaled by 0x7FFF, truncated toward zero and
 * stored as a little-endian two's-complement 16-bit word.
 */
module Wav {
  type Byte = b: int | 0 <= b < 256

  /** A rendered buffer: `length` frames of each channel, at `sampleRate`. */
  datatype AudioBuffer = AudioBuffer(length: nat, sampleRate: int, data: seq<seq<real>>)
  {
    /** Every channel holds `length` samples, as an AudioBuffer does. */
    predicate WellFormed()
    {
      forall c :: 0 <= c < |data| ==> |data[c]| == length
    }
  }

  /** `setUint16(offset, x, true)`: x modulo 2^16, low byte first. */
  function U16(x: int): (b: seq<Byte>)
    ensures |b| == 2
  {
    var w := x % 0x1_0000;
    [w % 256, w / 256]
  }

  /** `setUint32(offset, x, true)`: x modulo 2^32, lowest byte first. */
  function U32(x: int): (b: seq<Byte>)
    ensures |b| == 4
  {
    var w := x % 0x1_0000_0000;
    [w % 256, (w / 256) % 256, (w / 0x1_0000) % 256, w / 0x100_0000]
  }

  /** A little-endian 16-bit word read back from `off`. */
  function Read16(b: seq<Byte>, off: nat): int
    requires off + 2 <= |b|
  {
    (b[off] as int) + 256 * (b[off + 1] as int)
  }

  /** A little-endian 32-bit word read back from `off`. */
  function Read32(b: seq<Byte>, off: nat): int
    requires off + 4 <= |b|
  {
    (b[off] as int) + 256 * (b[off + 1] as int) + 0x1_0000 * (b[off + 2] as int) + 0x100_0000 * (b[off + 3] as int)
  }

  /** `writeString`: one byte per character code, as setUint8 stores it. */
  function Ascii(s: string): (b: seq<Byte>)
    ensures |b| == |s|
    ensures forall k :: 0 <= k < |s| && (s[k] as int) < 256 ==> b[k] == s[k] as int
  {
    seq(|s|, k requires 0 <= k < |s| => (s[k] as int) % 256)
  }

  /**
   * The header for `length` frames of `channels` channels at `sampleRate`:
   * "RIFF", the RIFF size, "WAVE", "fmt ", the fmt chunk size 16, the format 1
   * (PCM), the channel count, the sample rate, the byte rate, the block
   * alignment, 16 bits per sample, "data" and the data size.
   */
  function Header(length: nat, channels: nat, sampleRate: int): (h: seq<Byte>)
    ensures |h| == 44
  {
    var dataSize := length * channels * 2;
    var riff := U32(36 + dataSize);
    var ch := U16(channels);
    var rate := U32(sampleRate);
    var byteRate := U32(sampleRate * channels * 2);
    var align := U16(channels * 2);
    var size := U32(dataSize);
    Ascii("RIFF") + riff + Ascii("WAVE") + Ascii("fmt ")
    + U32(16) + U16(1) + ch + rate
    + byteRate + align + U16(16) + Ascii("data")
    + size
  }

  function Clamp(x: real): (y: real)
    ensures -1.0 <= y <= 1.0
    ensures -1.0 <= x <= 1.0 ==> y == x
  {
    if x < -1.0 then -1.0 else if x > 1.0 then 1.0 else x
  }

  /** ToInt32-style truncation toward zero. */
  function Trunc(x: real): (n: int)
    ensures x >= 0.0 ==> n as real <= x < n as real + 1.0
    ensures x < 0.0 ==> n as real - 1.0 < x <= n as real
  {
    if x >= 0.0 then x.Floor else -((-x).Floor)
  }

  /** The 16-bit value stored for a sample. */
  function SampleWord(x: real): (w: int)
    ensures -0x7FFF <= w <= 0x7FFF
  {
    Trunc(Clamp(x) * 32767.0)
  }

  /** The two bytes stored for a sample. */
  function SampleBytes(x: real): (b: seq<Byte>)
    ensures |b| == 2
  {
    U16(SampleWord(x))
  }

  /** The bytes of channels 0..c-1 of frame i. */
  function FrameBytes(buf: AudioBuffer, i: nat, c: nat): (b: seq<Byte>)
    requires buf.WellFormed() && i < buf.length && c <= |buf.data|
    ensures |b| == 2 * c
  {
    if c == 0 then [] else FrameBytes(buf, i, c - 1) + SampleBytes(buf.data[c - 1][i])
  }

  /** The bytes of frames 0..k-1, every channel of a frame in channel order. */
  function Frames(buf: AudioBuffer, k: nat): (b: seq<Byte>)
    requires buf.WellFormed() && k <= buf.length
  {
    if k == 0 then [] else Frames(buf, k - 1) + FrameBytes(buf, k - 1, |buf.data|)
  }

  /** Two bytes per channel per frame. */
  lemma {:induction false} FramesLength(buf: AudioBuffer, k: nat)
    requires buf.WellFormed() && k <= buf.length
    ensures |Frames(buf, k)| == 2 * |buf.data| * k
  {
    if k > 0 {
      FramesLength(buf, k - 1);
      assert 2 * |buf.data| * (k - 1) + 2 * |buf.data| == 2 * |buf.data| * k;
    }
  }

  /** The whole file. */
  function WavFile(buf: AudioBuffer): (w: seq<Byte>)
    requires buf.WellFormed()
    ensures |w| == 44 + buf.length * |buf.data| * 2
    ensures w[..44] == Header(buf.length, |buf.data|, buf.sampleRate)
  {
    FramesLength(buf, buf.length);
    Reorder(|buf.data|, buf.length);
    Header(buf.length, |buf.data|, buf.sampleRate) + Frames(buf, buf.length)
  }

  /** Two bytes written by U16 read back as the value modulo 2^16. */
  lemma U16ReadBack(x: int)
    ensures Read16(U16(x), 0) == x % 0x1_0000
  {
  }

  /** Four bytes written by U32 read back as the value modulo 2^32. */
  lemma U32ReadBack(x: int)
    ensures Read32(U32(x), 0) == x % 0x1_0000_0000
  {
    var w := x % 0x1_0000_0000;
    assert w % 256 + 256 * ((w / 256) % 256) == w % 0x1_0000;
    assert w % 0x1_0000 + 0x1_0000 * ((w / 0x1_0000) % 256) == w % 0x100_0000;
    assert w % 0x100_0000 + 0x100_0000 * (w / 0x100_0000) == w;
  }

  /** The element-wise view of the header. */
  lemma HeaderBytes(length: nat, channels: nat, sampleRate: int)
    ensures var h := Header(length, channels, sampleRate);
      && h[0..4] == Ascii("RIFF") && h[8..12] == Ascii("WAVE") && h[12..16] == Ascii("fmt ") && h[36..40] == Ascii("data")
      && h[4..8] == U32(36 + length * channels * 2) && h[16..20] == U32(16) && h[20..22] == U16(1)
      && h[22..24] == U16(channels) && h[24..28] == U32(sampleRate) && h[28..32] == U32(sampleRate * channels * 2)
      && h[32..34] == U16(channels * 2) && h[34..36] == U16(16) && h[40..44] == U32(length * channels * 2)
  {
  }

  /** Reading a field of the header reads the bytes stored for it. */
  lemma Read32At(h: seq<Byte>, off: nat, x: int)
    requires off + 4 <= |h| && h[off..off + 4] == U32(x)
    ensures Read32(h, off) == x % 0x1_0000_0000
  {
    assert h[off] == U32(x)[0] && h[off + 1] == U32(x)[1] && h[off + 2] == U32(x)[2] && h[off + 3] == U32(x)[3];
    U32ReadBack(x);
  }

  lemma Read16At(h: seq<Byte>, off: nat, x: int)
    requires off + 2 <= |h| && h[off..off + 2] == U16(x)
    ensures Read16(h, off) == x % 0x1_0000
  {
    assert h[off] == U16(x)[0] && h[off + 1] == U16(x)[1];
    U16ReadBack(x);
  }

  /** The size fields of the header: the RIFF size 36 + data size and the data size, modulo 2^32. */
  lemma HeaderSizes(length: nat, channels: nat, sampleRate: int)
    ensures var h := Header(length, channels, sampleRate);
      && Read32(h, 4) == (36 + length * channels * 2) % 0x1_0000_0000
      && Read32(h, 40) == (length * channels * 2) % 0x1_0000_0000
  {
    var h := Header(length, channels, sampleRate);
    HeaderBytes(length, channels, sampleRate);
    Read32At(h, 4, 36 + length * channels * 2);
    Read32At(h, 40, length * channels * 2);
  }

  /** The fixed fmt fields: chunk size 16, PCM format 1, 16 bits per sample. */
  lemma HeaderConstants(length: nat, channels: nat, sampleRate: int)
    ensures var h := Header(length, channels, sampleRate);
      Read32(h, 16) == 16 && Read16(h, 20) == 1 && Read16(h, 34) == 16
  {
    var h := Header(length, channels, sampleRate);
    HeaderBytes(length, channels, sampleRate);
    Fixed32(h, 16, 16);
    Fixed16(h, 20, 1);
    Fixed16(h, 34, 16);
  }

  lemma Fixed32(h: seq<Byte>, off: nat, x: nat)
    requires x < 0x1_0000_0000 && off + 4 <= |h| && h[off..off + 4] == U32(x)
    ensures Read32(h, off) == x
  {
    Read32At(h, off, x);
  }

  lemma Fixed16(h: seq<Byte>, off: nat, x: nat)
    requires x < 0x1_0000 && off + 2 <= |h| && h[off..off + 2] == U16(x)
    ensures Read16(h, off) == x
  {
    Read16At(h, off, x);
  }

  /** The fmt fields that follow the buffer: the channel count, the rates and the block alignment. */
  lemma HeaderFormat(length: nat, channels: nat, sampleRate: int)
    ensures var h := Header(length, channels, sampleRate);
      && Read16(h, 22) == channels % 0x1_0000
      && Read32(h, 24) == sampleRate % 0x1_0000_0000
      && Read32(h, 28) == (sampleRate * channels * 2) % 0x1_0000_0000
      && Read16(h, 32) == (channels * 2) % 0x1_0000
  {
    var h := Header(length, channels, sampleRate);
    HeaderBytes(length, channels, sampleRate);
    Read16At(h, 22, channels);
    Read32At(h, 24, sampleRate);
    Read32At(h, 28, sampleRate * channels * 2);
    Read16At(h, 32, channels * 2);
  }

  lemma Reorder(c: nat, l: nat)
    ensures 2 * c * l == l * c * 2
  {
    assert c * l == l * c;
  }

  /** Sample i of channel c sits at byte 44 + 2 * (i * channels + c). */
  lemma {:induction false} SampleAt(buf: AudioBuffer, k: nat, i: nat, c: nat)
    requires buf.WellFormed() && i < k <= buf.length && c < |buf.data|
    ensures var C := |buf.data|;
      2 * (i * C + c) + 2 <= |Frames(buf, k)|
      && Frames(buf, k)[2 * (i * C + c) .. 2 * (i * C + c) + 2] == SampleBytes(buf.data[c][i])
  {
    var C := |buf.data|;
    var o := 2 * (i * C + c);
    var prev := Frames(buf, k - 1);
    var last := FrameBytes(buf, k - 1, C);
    assert Frames(buf, k) == prev + last;
    if i < k - 1 {
      SampleAt(buf, k - 1, i, c);
      assert Frames(buf, k)[o .. o + 2] == prev[o .. o + 2];
    } else {
      FramesLength(buf, k - 1);
      OffsetOfLast(i, c, C);
      FrameSampleAt(buf, i, C, c);
      assert o == |prev| + 2 * c;
      assert Frames(buf, k)[o .. o + 2] == last[2 * c .. 2 * c + 2];
    }
  }

  /** The offset arithmetic of the last frame: frame i starts after i frames of C channels. */
  lemma OffsetOfLast(i: nat, c: nat, C: nat)
    ensures 2 * (i * C + c) == 2 * C * i + 2 * c
  {
    assert i * C == C * i;
  }

  /** Within a frame, channel c sits at byte 2 * c. */
  lemma {:induction false} FrameSampleAt(buf: AudioBuffer, i: nat, n: nat, c: nat)
    requires buf.WellFormed() && i < buf.length && c < n <= |buf.data|
    ensures FrameBytes(buf, i, n)[2 * c .. 2 * c + 2] == SampleBytes(buf.data[c][i])
  {
    var prev := FrameBytes(buf, i, n - 1);
    assert FrameBytes(buf, i, n) == prev + SampleBytes(buf.data[n - 1][i]);
    if c < n - 1 {
      FrameSampleAt(buf, i, n - 1, c);
    }
  }

  /** Fewer frames take no more bytes. */
  lemma {:induction false} FramesGrow(buf: AudioBuffer, k: nat, m: nat)
    requires buf.WellFormed() && k <= m <= buf.length
    ensures |Frames(buf, k)| <= |Frames(buf, m)|
    decreases m
  {
    if k < m {
      FramesGrow(buf, k, m - 1);
      assert |Frames(buf, m)| == |Frames(buf, m - 1)| + |FrameBytes(buf, m - 1, |buf.data|)|;
    }
  }

  /** `audioBufferToWav(buffer)`: the header, then the samples frame by frame. */
  method AudioBufferToWav(buf: AudioBuffer) returns (bytes: array<Byte>)
    requires buf.WellFormed()
    ensures fresh(bytes)
    ensures bytes[..] == WavFile(buf)
  {
    var length := buf.length;
    var numberOfChannels := |buf.data|;
    bytes := new Byte[44 + 2 * numberOfChannels * length];
    var h := Header(length, numberOfChannels, buf.sampleRate);
    WriteBytes(bytes, h);
    WriteFrames(bytes, buf);
    assert bytes[..] == h + Frames(buf, buf.length) by {
      assert bytes[..] == bytes[..44] + bytes[44..];
    }
  }

  /** The sample loops of audioBufferToWav: every frame, every channel, from byte 44 on. */
  method WriteFrames(bytes: array<Byte>, buf: AudioBuffer)
    requires buf.WellFormed() && bytes.Length == 44 + 2 * |buf.data| * buf.length
    modifies bytes
    ensures bytes[..44] == old(bytes[..44])
    ensures bytes[44..] == Frames(buf, buf.length)
  {
    FramesLength(buf, buf.length);
    ghost var h := bytes[..44];
    var offset := 44;
    for i := 0 to buf.length
      invariant offset == 44 + |Frames(buf, i)| <= bytes.Length
      invariant bytes[..offset] == h + Frames(buf, i)
    {
      FramesGrow(buf, i + 1, buf.length);
      ghost var written := h + Frames(buf, i);
      assert Frames(buf, i + 1) == Frames(buf, i) + FrameBytes(buf, i, |buf.data|);
      assert written + FrameBytes(buf, i, |buf.data|) == h + Frames(buf, i + 1);
      WriteFrame(bytes, buf, i, offset);
      offset := offset + 2 * |buf.data|;
    }
    assert bytes[..] == h + Frames(buf, buf.length);
  }

  /** One pass of the channel loop: frame i's samples from `offset` on. */
  method WriteFrame(bytes: array<Byte>, buf: AudioBuffer, i: nat, offset: nat)
    requires buf.WellFormed() && i < buf.length && offset + 2 * |buf.data| <= bytes.Length
    modifies bytes
    ensures bytes[..offset + 2 * |buf.data|] == old(bytes[..offset]) + FrameBytes(buf, i, |buf.data|)
    ensures bytes[offset + 2 * |buf.data|..] == old(bytes[offset + 2 * |buf.data|..])
  {
    ghost var prefix := bytes[..offset];
    var at := offset;
    for channel := 0 to |buf.data|
      invariant at == offset + 2 * channel
      invariant bytes[..at] == prefix + FrameBytes(buf, i, channel)
      invariant bytes[at..] == old(bytes[at..])
    {
      ghost var before := bytes[at..];
      WriteSample(bytes, at, buf.data[channel][i]);
      assert bytes[at + 2..] == before[2..];
      at := at + 2;
    }
  }

  /** The header writes (writeString, setUint32, setUint16) at offsets 0..43, as one block. */
  method WriteBytes(bytes: array<Byte>, h: seq<Byte>)
    requires |h| <= bytes.Length
    modifies bytes
    ensures bytes[..|h|] == h
    ensures bytes[|h|..] == old(bytes[|h|..])
  {
    for k := 0 to |h|
      invariant bytes[..k] == h[..k]
      invariant bytes[|h|..] == old(bytes[|h|..])
    {
      bytes[k] := h[k];
      assert bytes[..k + 1] == bytes[..k] + [h[k]];
    }
  }

  /** `view.setInt16(offset, sample * 0x7FFF, true)` on the clamped sample. */
  method WriteSample(bytes: array<Byte>, offset: nat, x: real)
    requires offset + 2 <= bytes.Length
    modifies bytes
    ensures bytes[..offset + 2] == old(bytes[..offset]) + SampleBytes(x)
    ensures bytes[offset + 2..] == old(bytes[offset + 2..])
  {
    var sample := Clamp(x);
    var w := Trunc(sample * 32767.0) % 0x1_0000;
    bytes[offset] := w % 256;
    bytes[offset + 1] := w / 256;
    assert bytes[..offset + 2] == old(bytes[..offset]) + [w % 256, w / 256];
  }
}

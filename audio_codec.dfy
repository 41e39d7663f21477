/**
 * The PCM -> WAV bridge of services/geminiService.ts: `decode` (base 64
 * payload to octets), `decodeAudioData` (16-bit PCM to an `AudioBuffer` of
 * normalised samples) and `audioBufferToWav` (a 44-octet RIFF/WAVE header
 * followed by interleaved 16-bit samples, written through a moving cursor).
 *
 * Samples are exact reals: every int16 / 32768 is exactly representable in
 * a Float32Array, and a float32 sample times 32767 or 32768 is exact in a
 * JavaScript number, so real arithmetic gives the same values as the
 * browser (NaN and infinities aside).
 */
module AudioCodec {
  import opened Wrappers
  import opened Bytes
  import Base64

  /** Channel counts and sample rates every Web Audio implementation accepts in `createBuffer`. */
  const MaxChannels: nat := 32
  const MinSampleRate: nat := 8000
  const MaxSampleRate: nat := 96000

  /** The size of the canonical RIFF/WAVE header in octets. */
  const HeaderSize: nat := 44

  // ---------------------------------------------------------------- decode

  /**
   * `decode`: `atob` the payload, then copy each character code of the
   * binary string into a fresh `Uint8Array`. `None` is a text the strict
   * RFC 4648 decoder rejects; `atob` would also accept white space and
   * missing padding.
   */
  method Decode(base64: string) returns (r: Option<array<byte>>)
    ensures r.None? <==> Base64.Decode(base64).None?
    ensures r.Some? ==> fresh(r.value) && r.value[..] == Base64.Decode(base64).value
  {
    var binaryString := Base64.Atob(base64);
    if binaryString.None? {
      return None;
    }
    var s := binaryString.value;
    var len := |s|;
    var bytes := new byte[len](_ => 0);
    for i := 0 to len
      invariant forall j :: 0 <= j < i ==> bytes[j] == s[j] as int
    {
      // a Uint8Array store keeps the character code modulo 256
      bytes[i] := s[i] as int % 256;
    }
    r := Some(bytes);
  }

  // ------------------------------------------------------- decodeAudioData

  /** Sample `k` of the PCM payload normalised as the source does: `dataInt16[k] / 32768.0`. */
  function SampleValue(bytes: seq<byte>, k: nat): (x: real)
    requires 2 * k + 2 <= |bytes|
    ensures -1.0 <= x <= 32767.0 / 32768.0
    ensures x * 32768.0 == Int16At(bytes, k) as real
  {
    Int16At(bytes, k) as real / 32768.0
  }

  /**
   * An `AudioBuffer`: `numberOfChannels` planar channels of `length`
   * float samples each; `channelData[c, i]` is `getChannelData(c)[i]`.
   */
  class AudioBuffer {
    const numberOfChannels: nat
    const length: nat
    const sampleRate: nat
    const channelData: array2<real>

    ghost predicate Valid()
      reads this
    {
      && channelData.Length0 == numberOfChannels
      && channelData.Length1 == length
      && 1 <= numberOfChannels <= MaxChannels
      && 1 <= length
      && MinSampleRate <= sampleRate <= MaxSampleRate
    }

    /** A buffer of silence, as `createBuffer` allocates it. */
    constructor (numberOfChannels: nat, length: nat, sampleRate: nat)
      requires 1 <= numberOfChannels <= MaxChannels && 1 <= length
      requires MinSampleRate <= sampleRate <= MaxSampleRate
      ensures Valid() && fresh(channelData)
      ensures this.numberOfChannels == numberOfChannels && this.length == length && this.sampleRate == sampleRate
      ensures forall c, i :: 0 <= c < numberOfChannels && 0 <= i < length ==> channelData[c, i] == 0.0
    {
      this.numberOfChannels := numberOfChannels;
      this.length := length;
      this.sampleRate := sampleRate;
      channelData := new real[numberOfChannels, length]((_, _) => 0.0);
    }

    /** `duration`: the playing time in seconds. */
    function Duration(): (d: real)
      reads this
      requires Valid()
      ensures d > 0.0
      ensures d * sampleRate as real == length as real
    {
      length as real / sampleRate as real
    }
  }

  /**
   * `BaseAudioContext.createBuffer`: throws `NotSupportedError` for zero
   * channels or zero frames.
   */
  method CreateBuffer(numberOfChannels: nat, length: nat, sampleRate: nat) returns (r: Result<AudioBuffer>)
    requires numberOfChannels <= MaxChannels
    requires MinSampleRate <= sampleRate <= MaxSampleRate
    ensures r.Err? <==> numberOfChannels == 0 || length == 0
    ensures r.Ok? ==> fresh(r.value) && fresh(r.value.channelData) && r.value.Valid()
    ensures r.Ok? ==> r.value.numberOfChannels == numberOfChannels && r.value.length == length && r.value.sampleRate == sampleRate
  {
    if numberOfChannels == 0 || length == 0 {
      return Err("NotSupportedError");
    }
    var buffer := new AudioBuffer(numberOfChannels, length, sampleRate);
    r := Ok(buffer);
  }

  // Arithmetic on sample slots, kept in small steps so that the solver
  // never has to search for nonlinear facts on its own.

  lemma MulMonotone(a: nat, b: nat, m: nat)
    requires a <= b
    ensures a * m <= b * m
  {
  }

  lemma MulGap(a: int, b: int, m: nat)
    requires a < b
    ensures a * m + m <= b * m
  {
    var d: nat := b - a;
    MulMonotone(1, d, m);
    assert b * m == (a + d) * m == a * m + d * m;
  }

  lemma MulSucc(a: nat, m: nat)
    ensures (a + 1) * m == a * m + m
  {
  }

  lemma DivUnique(k: int, m: int, q: int, r: int)
    requires m > 0 && 0 <= r < m && k == q * m + r
    ensures k / m == q && k % m == r
  {
    var q', r' := k / m, k % m;
    assert k == q' * m + r';
    if q' > q {
      MulGap(q, q', m);
    } else if q' < q {
      MulGap(q', q, m);
    }
  }

  /** Slot `i * C + c` is channel `c` of frame `i`. */
  lemma SlotOf(i: nat, c: nat, channels: nat)
    requires c < channels
    ensures (i * channels + c) / channels == i && (i * channels + c) % channels == c
  {
    DivUnique(i * channels + c, channels, i, c);
  }

  /** Slot `c` of frame `i` lies inside the first `frames * channels` samples. */
  lemma SlotInside(i: nat, c: nat, channels: nat, frames: nat)
    requires i < frames && c < channels
    ensures i * channels + c < frames * channels
  {
    MulGap(i, frames, channels);
  }

  /** The frames and channels of a payload fill at most its `|bytes| / 2` samples. */
  lemma FramesFit(samples: nat, channels: nat)
    requires channels > 0
    ensures samples / channels * channels <= samples
  {
  }

  /**
   * Channel `c` of frame `i` of a payload with `channels` interleaved
   * channels: PCM sample `i * channels + c`, normalised.
   */
  ghost function PcmSample(bytes: seq<byte>, channels: nat, c: nat, i: nat): (x: real)
    requires c < channels && i < |bytes| / 2 / channels
    ensures 2 * (i * channels + c) + 2 <= |bytes| && x == SampleValue(bytes, i * channels + c)
  {
    FramesFit(|bytes| / 2, channels);
    SlotInside(i, c, channels, |bytes| / 2 / channels);
    SampleValue(bytes, i * channels + c)
  }

  /**
   * `decodeAudioData`: read the octets as little-endian int16 samples and
   * de-interleave them, channel `c` of frame `i` coming from sample
   * `i * numChannels + c`, each scaled by 1/32768.
   */
  method DecodeAudioData(data: array<byte>, sampleRate: nat, numChannels: nat) returns (r: Result<AudioBuffer>)
    requires numChannels <= MaxChannels
    requires MinSampleRate <= sampleRate <= MaxSampleRate
    requires numChannels > 0 ==> (data.Length / 2) % numChannels == 0
    ensures r.Err? <==> numChannels == 0 || data.Length < 2
    ensures r.Ok? ==> fresh(r.value) && fresh(r.value.channelData) && r.value.Valid()
    ensures r.Ok? ==> && r.value.numberOfChannels == numChannels
                      && r.value.sampleRate == sampleRate
                      && r.value.length == data.Length / 2 / numChannels
    ensures r.Ok? ==> forall c, i :: 0 <= c < numChannels && 0 <= i < r.value.length ==>
                        r.value.channelData[c, i] == PcmSample(data[..], numChannels, c, i)
  {
    // the Int16Array view: its length argument data.length / 2 is truncated
    var samples := data.Length / 2;
    // with no channels the division has no frame count; createBuffer rejects the call anyway
    var frameCount := if numChannels == 0 then 0 else samples / numChannels;
    var created := CreateBuffer(numChannels, frameCount, sampleRate);
    if created.Err? {
      return created;
    }
    var buffer := created.value;
    ghost var bytes := data[..];
    for channel := 0 to numChannels
      invariant forall c, i :: 0 <= c < channel && 0 <= i < frameCount ==>
                  buffer.channelData[c, i] == PcmSample(bytes, numChannels, c, i)
    {
      for i := 0 to frameCount
        invariant forall c, j :: 0 <= c < channel && 0 <= j < frameCount ==>
                    buffer.channelData[c, j] == PcmSample(bytes, numChannels, c, j)
        invariant forall j :: 0 <= j < i ==> buffer.channelData[channel, j] == PcmSample(bytes, numChannels, channel, j)
      {
        ghost var x := PcmSample(bytes, numChannels, channel, i);
        buffer.channelData[channel, i] := SampleValue(data[..], i * numChannels + channel);
      }
    }
    r := Ok(buffer);
  }

  // ------------------------------------------------------ audioBufferToWav

  /** `Math.max(-1, Math.min(1, x))`. */
  function Clamp(x: real): (y: real)
    ensures -1.0 <= y <= 1.0
    ensures -1.0 <= x <= 1.0 ==> y == x
  {
    if x > 1.0 then 1.0 else if x < -1.0 then -1.0 else x
  }

  /** Truncation toward zero, the first step of the ToInt16 conversion `setInt16` applies. */
  function Trunc(x: real): (n: int)
    ensures n as real <= x < n as real + 1.0 || n as real - 1.0 < x <= n as real
    ensures x >= 0.0 ==> 0 <= n && n as real <= x < n as real + 1.0
    ensures x < 0.0 ==> n <= 0 && n as real - 1.0 < x <= n as real
  {
    if x >= 0.0 then x.Floor else -((-x).Floor)
  }

  /** The scaled sample of line 67: negative values times 0x8000, the others times 0x7FFF. */
  function Scale(x: real): (y: real)
    ensures -32768.0 <= y <= 32767.0
  {
    var s := Clamp(x);
    if s < 0.0 then s * 32768.0 else s * 32767.0
  }

  /** The 16-bit integer the WAV data holds for a sample. */
  function Quantize(x: real): (q: int)
    ensures -32768 <= q <= 32767
    ensures x <= -1.0 ==> q == -32768
    ensures x >= 1.0 ==> q == 32767
    ensures (x < 0.0 ==> q <= 0) && (x >= 0.0 ==> q >= 0)
  {
    Trunc(Scale(x))
  }

  /**
   * The octets after `header` once the first `n` samples are written:
   * each sample quantised and stored little-endian, in order.
   */
  function WithSamples(header: seq<byte>, samples: seq<real>, n: nat): (r: seq<byte>)
    requires n <= |samples|
    ensures |r| == |header| + 2 * n
  {
    if n == 0 then header
    else WithSamples(header, samples, n - 1) + Le16(Quantize(samples[n - 1]))
  }

  /** The RIFF descriptor: "RIFF", the file size less 8, "WAVE". */
  function RiffDescriptor(length: nat): (h: seq<byte>)
    ensures |h| == 12
  {
    Le32(0x46464952) + Le32(length - 8) + Le32(0x45564157)
  }

  /** The first half of the `fmt ` chunk: its id, its size 16, format 1 (PCM) and the channel count. */
  function FmtChunkHead(numOfChan: nat): (h: seq<byte>)
    ensures |h| == 12
  {
    Le32(0x20746d66) + Le32(16) + Le16(1) + Le16(numOfChan)
  }

  /** The second half of the `fmt ` chunk: sample rate, byte rate, block align and 16 bits per sample. */
  function FmtChunkRates(numOfChan: nat, sampleRate: nat): (h: seq<byte>)
    ensures |h| == 12
  {
    Le32(sampleRate) + Le32(sampleRate * 2 * numOfChan) + Le16(numOfChan * 2) + Le16(16)
  }

  /** The `data` chunk header; its size is `length - pos - 4` with `pos` at 40. */
  function DataChunkHeader(length: nat): (h: seq<byte>)
    ensures |h| == 8
  {
    Le32(0x61746164) + Le32(length - 40 - 4)
  }

  /** The 44-octet header that lines 48-60 write for a file of `length` octets. */
  function WavHeader(numOfChan: nat, sampleRate: nat, length: nat): (h: seq<byte>)
    ensures |h| == HeaderSize
  {
    RiffDescriptor(length) + FmtChunkHead(numOfChan) + FmtChunkRates(numOfChan, sampleRate) + DataChunkHeader(length)
  }

  /** The WAV file for interleaved samples. */
  function WavFile(numOfChan: nat, sampleRate: nat, samples: seq<real>): (w: seq<byte>)
    ensures |w| == 2 * |samples| + HeaderSize
  {
    WithSamples(WavHeader(numOfChan, sampleRate, 2 * |samples| + HeaderSize), samples, |samples|)
  }

  /** Every slot below `frames * channels` names a channel and a frame inside the buffer. */
  lemma SlotsInRange(frames: nat, channels: nat)
    requires channels > 0
    ensures forall k: nat :: k < frames * channels ==> k / channels < frames
  {
    forall k: nat | k < frames * channels
      ensures k / channels < frames
    {
      if k / channels >= frames {
        MulMonotone(frames, k / channels, channels);
      }
    }
  }

  /** The samples of a buffer interleaved frame by frame: slot `k` is channel `k % C` of frame `k / C`. */
  ghost function Interleaved(buffer: AudioBuffer): (s: seq<real>)
    reads buffer, buffer.channelData
    requires buffer.Valid()
    ensures |s| == buffer.length * buffer.numberOfChannels
  {
    var n, c := buffer.length, buffer.numberOfChannels;
    SlotsInRange(n, c);
    seq(n * c, k requires 0 <= k < n * c reads buffer.channelData => buffer.channelData[k % c, k / c])
  }

  /**
   * The `DataView` over the output `ArrayBuffer` together with the `pos`
   * cursor that the `setUint16` / `setUint32` helpers advance; `written`
   * is the prefix of the view filled so far.
   */
  class ByteCursor {
    const view: array<byte>
    var pos: nat
    ghost var written: seq<byte>

    ghost predicate Valid()
      reads this, view
    {
      && pos <= view.Length
      && |written| == pos
      && forall j :: 0 <= j < pos ==> view[j] == written[j]
    }

    /** `new DataView(new ArrayBuffer(length))` with `pos = 0`. */
    constructor (length: nat)
      ensures Valid() && fresh(view) && view.Length == length && pos == 0 && written == []
    {
      view := new byte[length](_ => 0);
      pos := 0;
      written := [];
    }

    /** `setUint16`: `view.setUint16(pos, v, true); pos += 2`. */
    method SetUint16(v: int)
      requires Valid() && pos + 2 <= view.Length
      modifies this, view
      ensures Valid() && pos == old(pos) + 2
      ensures written == old(written) + Le16(v)
    {
      var b := Le16(v);
      view[pos] := b[0];
      view[pos + 1] := b[1];
      pos := pos + 2;
      written := written + b;
    }

    /** `setUint32`: `view.setUint32(pos, v, true); pos += 4`. */
    method SetUint32(v: int)
      requires Valid() && pos + 4 <= view.Length
      modifies this, view
      ensures Valid() && pos == old(pos) + 4
      ensures written == old(written) + Le32(v)
    {
      var b := Le32(v);
      view[pos] := b[0];
      view[pos + 1] := b[1];
      view[pos + 2] := b[2];
      view[pos + 3] := b[3];
      pos := pos + 4;
      written := written + b;
    }

    /** `view.setInt16(pos, x, true); pos += 2`: ToInt16 truncates x toward zero and wraps it modulo 2^16. */
    method SetInt16(x: real)
      requires Valid() && pos + 2 <= view.Length
      modifies this, view
      ensures Valid() && pos == old(pos) + 2
      ensures written == old(written) + Le16(Trunc(x))
    {
      var b := Le16(Trunc(x));
      view[pos] := b[0];
      view[pos + 1] := b[1];
      pos := pos + 2;
      written := written + b;
    }
  }

  /** A multiple of `m` below another multiple of `m` is at least `m` below it. */
  lemma NextMultiple(a: nat, b: nat, m: nat)
    requires m > 0 && a % m == 0 && b % m == 0 && a < b
    ensures a + m <= b
  {
    DivUnique(a, m, a / m, 0);
    DivUnique(b, m, b / m, 0);
    if b / m <= a / m {
      MulMonotone(b / m, a / m, m);
    } else {
      MulGap(a / m, b / m, m);
    }
  }

  /** Adding `m` to a multiple of `m` gives a multiple of `m`. */
  lemma MultipleStep(a: nat, m: nat)
    requires m > 0 && a % m == 0
    ensures (a + m) % m == 0
  {
    DivUnique(a, m, a / m, 0);
    DivUnique(a + m, m, a / m + 1, 0);
  }

  /** Lines 48-50: the RIFF descriptor. */
  method WriteRiffDescriptor(cursor: ByteCursor, length: nat)
    requires cursor.Valid() && cursor.pos + 12 <= cursor.view.Length
    modifies cursor, cursor.view
    ensures cursor.Valid() && cursor.pos == old(cursor.pos) + 12
    ensures cursor.written == old(cursor.written) + RiffDescriptor(length)
  {
    ghost var start := cursor.written;
    cursor.SetUint32(0x46464952); // "RIFF"
    cursor.SetUint32(length - 8);
    cursor.SetUint32(0x45564157); // "WAVE"
    assert cursor.written == start + Le32(0x46464952) + Le32(length - 8) + Le32(0x45564157);
  }

  /** Lines 51-54: the `fmt ` chunk id, size, format and channel count. */
  method WriteFmtChunkHead(cursor: ByteCursor, numOfChan: nat)
    requires cursor.Valid() && cursor.pos + 12 <= cursor.view.Length
    modifies cursor, cursor.view
    ensures cursor.Valid() && cursor.pos == old(cursor.pos) + 12
    ensures cursor.written == old(cursor.written) + FmtChunkHead(numOfChan)
  {
    ghost var start := cursor.written;
    cursor.SetUint32(0x20746d66); // "fmt "
    cursor.SetUint32(16);
    cursor.SetUint16(1); // PCM
    cursor.SetUint16(numOfChan);
    assert cursor.written == start + Le32(0x20746d66) + Le32(16) + Le16(1) + Le16(numOfChan);
  }

  /** Lines 55-58: the `fmt ` chunk rates and sample layout. */
  method WriteFmtChunkRates(cursor: ByteCursor, numOfChan: nat, sampleRate: nat)
    requires cursor.Valid() && cursor.pos + 12 <= cursor.view.Length
    modifies cursor, cursor.view
    ensures cursor.Valid() && cursor.pos == old(cursor.pos) + 12
    ensures cursor.written == old(cursor.written) + FmtChunkRates(numOfChan, sampleRate)
  {
    ghost var start := cursor.written;
    cursor.SetUint32(sampleRate);
    cursor.SetUint32(sampleRate * 2 * numOfChan);
    cursor.SetUint16(numOfChan * 2);
    cursor.SetUint16(16);
    assert cursor.written == start + Le32(sampleRate) + Le32(sampleRate * 2 * numOfChan) + Le16(numOfChan * 2) + Le16(16);
  }

  /** Lines 59-60: the `data` chunk header, written when `pos` is 36. */
  method WriteDataChunkHeader(cursor: ByteCursor, length: nat)
    requires cursor.Valid() && cursor.pos == 36 && cursor.view.Length == length && HeaderSize <= length
    modifies cursor, cursor.view
    ensures cursor.Valid() && cursor.pos == HeaderSize
    ensures cursor.written == old(cursor.written) + DataChunkHeader(length)
  {
    ghost var start := cursor.written;
    cursor.SetUint32(0x61746164); // "data"
    cursor.SetUint32(length - cursor.pos - 4);
    assert cursor.written == start + Le32(0x61746164) + Le32(length - 40 - 4);
  }

  /** The header writes of lines 48-60, through the cursor. */
  method WriteHeader(cursor: ByteCursor, numOfChan: nat, sampleRate: nat, length: nat)
    requires cursor.Valid() && cursor.pos == 0 && cursor.written == [] && cursor.view.Length == length && HeaderSize <= length
    modifies cursor, cursor.view
    ensures cursor.Valid() && cursor.pos == HeaderSize
    ensures cursor.written == WavHeader(numOfChan, sampleRate, length)
  {
    WriteRiffDescriptor(cursor, length);
    assert cursor.written == RiffDescriptor(length);
    WriteFmtChunkHead(cursor, numOfChan);
    WriteFmtChunkRates(cursor, numOfChan, sampleRate);
    WriteDataChunkHeader(cursor, length);
  }

  /**
   * The inner loop of lines 65-70 for one frame: for each channel, clamp
   * the sample, scale it and store it with `setInt16`. A frame at or past
   * the end of the buffer hits the end of the view on its first store,
   * where `setInt16` throws a `RangeError` (`ok` is false). `slots` is
   * `offset * numberOfChannels`, the number of samples already written.
   */
  method WriteFrame(cursor: ByteCursor, buffer: AudioBuffer, offset: nat,
                    ghost slots: nat, ghost header: seq<byte>, ghost samples: seq<real>)
    returns (ok: bool)
    requires buffer.Valid() && cursor.Valid() && samples == Interleaved(buffer)
    requires slots == offset * buffer.numberOfChannels && offset <= buffer.length
    requires cursor.view.Length == HeaderSize + 2 * |samples|
    requires cursor.pos == HeaderSize + 2 * slots
    requires cursor.written == WithSamples(header, samples, slots)
    modifies cursor, cursor.view
    ensures ok <==> offset < buffer.length
    ensures ok ==> && cursor.Valid()
                   && cursor.pos == HeaderSize + 2 * (slots + buffer.numberOfChannels)
                   && cursor.written == WithSamples(header, samples, slots + buffer.numberOfChannels)
  {
    var numOfChan := buffer.numberOfChannels;
    for ch := 0 to numOfChan
      invariant cursor.Valid() && cursor.view.Length == HeaderSize + 2 * |samples|
      invariant cursor.pos == HeaderSize + 2 * (slots + ch)
      invariant cursor.written == WithSamples(header, samples, slots + ch)
      invariant ch > 0 ==> offset < buffer.length
    {
      if cursor.pos + 2 > cursor.view.Length {
        if offset < buffer.length {
          SlotInside(offset, ch, numOfChan, buffer.length);
        }
        return false;
      }
      if offset == buffer.length {
        assert false;
      }
      SlotInside(offset, ch, numOfChan, buffer.length);
      SlotOf(offset, ch, numOfChan);
      assert samples[slots + ch] == buffer.channelData[ch, offset];
      var sample := Clamp(buffer.channelData[ch, offset]);
      sample := if sample < 0.0 then sample * 32768.0 else sample * 32767.0;
      assert Trunc(sample) == Quantize(samples[slots + ch]);
      cursor.SetInt16(sample);
    }
    return true;
  }

  /**
   * One pass of the `while` loop of lines 63-73: the `for` loop over `i`
   * writes the `numOfChan` frames from `offset` on. `ok` is false when a
   * frame runs past the end of the view; `offset` is then the frame count.
   */
  method WritePass(cursor: ByteCursor, buffer: AudioBuffer, offset: nat,
                   ghost slots: nat, ghost header: seq<byte>, ghost samples: seq<real>)
    returns (ok: bool, next: nat, ghost nextSlots: nat)
    requires buffer.Valid() && cursor.Valid() && samples == Interleaved(buffer)
    requires slots == offset * buffer.numberOfChannels && offset < buffer.length
    requires cursor.view.Length == HeaderSize + 2 * |samples|
    requires cursor.pos == HeaderSize + 2 * slots
    requires cursor.written == WithSamples(header, samples, slots)
    modifies cursor, cursor.view
    ensures ok <==> offset + buffer.numberOfChannels <= buffer.length
    ensures ok ==> && next == offset + buffer.numberOfChannels
                   && nextSlots == next * buffer.numberOfChannels
                   && cursor.Valid()
                   && cursor.pos == HeaderSize + 2 * nextSlots
                   && cursor.written == WithSamples(header, samples, nextSlots)
  {
    var numOfChan := buffer.numberOfChannels;
    next, nextSlots := offset, slots;
    for i := 0 to numOfChan
      invariant cursor.Valid() && cursor.view.Length == HeaderSize + 2 * |samples|
      invariant next == offset + i && next <= buffer.length
      invariant nextSlots == next * numOfChan
      invariant cursor.pos == HeaderSize + 2 * nextSlots
      invariant cursor.written == WithSamples(header, samples, nextSlots)
    {
      ok := WriteFrame(cursor, buffer, next, nextSlots, header, samples);
      if !ok {
        return;
      }
      MulSucc(next, numOfChan);
      next := next + 1;
      nextSlots := nextSlots + numOfChan;
    }
    ok := true;
  }

  /**
   * The `while` loop of lines 63-73: passes of `numOfChan` frames until
   * `pos` reaches the end of the view. `ok` is false when a pass runs past
   * the end (the `RangeError`), which happens exactly when the frame count
   * is not a multiple of the channel count.
   */
  method WriteSamples(cursor: ByteCursor, buffer: AudioBuffer, ghost header: seq<byte>, ghost samples: seq<real>)
    returns (ok: bool)
    requires buffer.Valid() && cursor.Valid() && samples == Interleaved(buffer)
    requires cursor.view.Length == HeaderSize + 2 * |samples|
    requires cursor.pos == HeaderSize && cursor.written == header
    modifies cursor, cursor.view
    ensures ok <==> buffer.length % buffer.numberOfChannels == 0
    ensures ok ==> cursor.Valid() && cursor.written == WithSamples(header, samples, |samples|)
    ensures ok ==> cursor.pos == cursor.view.Length
  {
    var numOfChan := buffer.numberOfChannels;
    var frames := buffer.length;
    var length := cursor.view.Length;
    var offset := 0;
    ghost var slots := 0;
    while cursor.pos < length
      invariant cursor.Valid() && cursor.view.Length == length
      invariant offset <= frames && offset % numOfChan == 0 && slots == offset * numOfChan
      invariant cursor.pos == HeaderSize + 2 * slots
      invariant cursor.written == WithSamples(header, samples, slots)
      decreases length - cursor.pos
    {
      if frames <= offset {
        MulMonotone(frames, offset, numOfChan);
      }
      ghost var start := offset;
      ok, offset, slots := WritePass(cursor, buffer, offset, slots, header, samples);
      if !ok {
        if frames % numOfChan == 0 {
          NextMultiple(start, frames, numOfChan);
        }
        return;
      }
      MultipleStep(start, numOfChan);
      MulGap(start, offset, numOfChan);
    }
    if offset < frames {
      MulGap(offset, frames, numOfChan);
    }
    ok := true;
  }

  /**
   * `audioBufferToWav`: a view of `frames * numOfChan * 2 + 44` octets,
   * the header, then the samples. `None` is the `RangeError` the sample
   * loop throws when the frame count is not a multiple of the channel
   * count.
   */
  method AudioBufferToWav(buffer: AudioBuffer) returns (r: Option<array<byte>>)
    requires buffer.Valid()
    ensures r.None? <==> buffer.length % buffer.numberOfChannels != 0
    ensures r.Some? ==> fresh(r.value)
    ensures r.Some? ==> r.value[..] == WavFile(buffer.numberOfChannels, buffer.sampleRate, Interleaved(buffer))
  {
    var numOfChan := buffer.numberOfChannels;
    var length := buffer.length * numOfChan * 2 + 44;
    var cursor := new ByteCursor(length);
    WriteHeader(cursor, numOfChan, buffer.sampleRate, length);
    var ok := WriteSamples(cursor, buffer, cursor.written, Interleaved(buffer));
    if !ok {
      return None;
    }
    assert cursor.view[..] == cursor.written;
    r := Some(cursor.view);
  }

  // ------------------------------------------------------------ properties

  /** Writing samples never disturbs the header in front of them. */
  lemma {:induction false} WithSamplesPrefix(header: seq<byte>, samples: seq<real>, n: nat)
    requires n <= |samples|
    ensures WithSamples(header, samples, n)[..|header|] == header
  {
    if n > 0 {
      WithSamplesPrefix(header, samples, n - 1);
      var prev := WithSamples(header, samples, n - 1);
      assert WithSamples(header, samples, n)[..|header|] == prev[..|header|];
    }
  }

  /** Sample `k` occupies the two octets at `|header| + 2k`, little-endian. */
  lemma {:induction false} WithSamplesAt(header: seq<byte>, samples: seq<real>, n: nat, k: nat)
    requires k < n <= |samples|
    ensures WithSamples(header, samples, n)[|header| + 2 * k..|header| + 2 * k + 2] == Le16(Quantize(samples[k]))
  {
    var prev := WithSamples(header, samples, n - 1);
    var w := WithSamples(header, samples, n);
    assert w == prev + Le16(Quantize(samples[n - 1]));
    if k < n - 1 {
      WithSamplesAt(header, samples, n - 1, k);
      assert w[|header| + 2 * k..|header| + 2 * k + 2] == prev[|header| + 2 * k..|header| + 2 * k + 2];
    }
  }

  /** A slice of a slice is a slice of the whole. */
  lemma SliceOfSlice(s: seq<byte>, lo: nat, hi: nat, i: nat, j: nat)
    requires lo <= hi <= |s| && i <= j <= hi - lo
    ensures s[lo..hi][i..j] == s[lo + i..lo + j]
  {
    var a, b := s[lo..hi][i..j], s[lo + i..lo + j];
    forall k | 0 <= k < |a|
      ensures a[k] == b[k]
    {
    }
  }

  /** A chunk of three 4-octet fields placed at `lo` holds each field at its own offset. */
  lemma ChunkOfThree(s: seq<byte>, lo: nat, a: seq<byte>, b: seq<byte>, c: seq<byte>)
    requires |a| == 4 && |b| == 4 && |c| == 4
    requires lo + 12 <= |s| && s[lo..lo + 12] == a + b + c
    ensures s[lo..lo + 4] == a && s[lo + 4..lo + 8] == b && s[lo + 8..lo + 12] == c
  {
    var t := s[lo..lo + 12];
    SliceOfSlice(s, lo, lo + 12, 0, 4);
    SliceOfSlice(s, lo, lo + 12, 4, 8);
    SliceOfSlice(s, lo, lo + 12, 8, 12);
    assert t[0..4] == a && t[4..8] == b && t[8..12] == c;
  }

  /** A chunk of two 4-octet fields placed at `lo` holds each field at its own offset. */
  lemma ChunkOfTwo(s: seq<byte>, lo: nat, a: seq<byte>, b: seq<byte>)
    requires |a| == 4 && |b| == 4
    requires lo + 8 <= |s| && s[lo..lo + 8] == a + b
    ensures s[lo..lo + 4] == a && s[lo + 4..lo + 8] == b
  {
    var t := s[lo..lo + 8];
    SliceOfSlice(s, lo, lo + 8, 0, 4);
    SliceOfSlice(s, lo, lo + 8, 4, 8);
    assert t[0..4] == a && t[4..8] == b;
  }

  /** A chunk of four fields (4, 4, 2 and 2 octets) placed at `lo` holds each field at its own offset. */
  lemma ChunkOfFour(s: seq<byte>, lo: nat, a: seq<byte>, b: seq<byte>, c: seq<byte>, d: seq<byte>)
    requires |a| == 4 && |b| == 4 && |c| == 2 && |d| == 2
    requires lo + 12 <= |s| && s[lo..lo + 12] == a + b + c + d
    ensures s[lo..lo + 4] == a && s[lo + 4..lo + 8] == b && s[lo + 8..lo + 10] == c && s[lo + 10..lo + 12] == d
  {
    var t := s[lo..lo + 12];
    SliceOfSlice(s, lo, lo + 12, 0, 4);
    SliceOfSlice(s, lo, lo + 12, 4, 8);
    SliceOfSlice(s, lo, lo + 12, 8, 10);
    SliceOfSlice(s, lo, lo + 12, 10, 12);
    assert t[0..4] == a && t[4..8] == b && t[8..10] == c && t[10..12] == d;
  }

  /** The header splits into its four parts at offsets 0, 12, 24 and 36. */
  lemma WavHeaderParts(numOfChan: nat, sampleRate: nat, length: nat)
    ensures var h := WavHeader(numOfChan, sampleRate, length);
      && h[0..12] == RiffDescriptor(length)
      && h[12..24] == FmtChunkHead(numOfChan)
      && h[24..36] == FmtChunkRates(numOfChan, sampleRate)
      && h[36..44] == DataChunkHeader(length)
  {
  }

  /** A WAV file begins with the four header parts, at offsets 0, 12, 24 and 36. */
  lemma WavFileChunks(numOfChan: nat, sampleRate: nat, samples: seq<real>)
    ensures var w, length := WavFile(numOfChan, sampleRate, samples), 2 * |samples| + HeaderSize;
      && |w| == length
      && w[0..12] == RiffDescriptor(length)
      && w[12..24] == FmtChunkHead(numOfChan)
      && w[24..36] == FmtChunkRates(numOfChan, sampleRate)
      && w[36..44] == DataChunkHeader(length)
  {
    var length := 2 * |samples| + HeaderSize;
    var h := WavHeader(numOfChan, sampleRate, length);
    var w := WavFile(numOfChan, sampleRate, samples);
    WithSamplesPrefix(h, samples, |samples|);
    WavHeaderParts(numOfChan, sampleRate, length);
    assert w[0..12] == w[..44][0..12];
    assert w[12..24] == w[..44][12..24];
    assert w[24..36] == w[..44][24..36];
    assert w[36..44] == w[..44][36..44];
  }

  /** The octets `setUint32` stores for a value given by its four octets, low one first. */
  lemma Le32Octets(a: byte, b: byte, c: byte, d: byte)
    ensures Le32(a + 0x100 * b + 0x1_0000 * c + 0x100_0000 * d) == [a, b, c, d]
  {
    var lo, hi := a + 0x100 * b, c + 0x100 * d;
    var v := lo + 0x1_0000 * hi;
    assert v == a + 0x100 * b + 0x1_0000 * c + 0x100_0000 * d;
    assert 0 <= lo < 0x1_0000 && 0 <= hi < 0x1_0000 && 0 <= v < 0x1_0000_0000;
    DivUnique(v, 0x1_0000_0000, 0, v);
    DivUnique(v, 0x1_0000, hi, lo);
    DivUnique(lo, 0x1_0000, 0, lo);
    DivUnique(hi, 0x1_0000, 0, hi);
    DivUnique(lo, 0x100, b, a);
    DivUnique(hi, 0x100, d, c);
    assert Le16(lo) == [a, b] && Le16(hi) == [c, d];
  }

  /** The four chunk tags, stored as little-endian 32-bit values, spell "RIFF", "WAVE", "fmt " and "data" in ASCII. */
  lemma TagsSpellNames()
    ensures Le32(0x46464952) == Ascii("RIFF") && Le32(0x45564157) == Ascii("WAVE")
    ensures Le32(0x20746d66) == Ascii("fmt ") && Le32(0x61746164) == Ascii("data")
  {
    Le32Octets(0x52, 0x49, 0x46, 0x46);
    Le32Octets(0x57, 0x41, 0x56, 0x45);
    Le32Octets(0x66, 0x6d, 0x74, 0x20);
    Le32Octets(0x64, 0x61, 0x74, 0x61);
  }

  /**
   * The RIFF descriptor of a WAV file: the tag "RIFF" (0x46464952 stored
   * little-endian), the RIFF size (the file size less 8) and the tag "WAVE",
   * each as `DataView.setUint32` stores it.
   */
  lemma WavRiffLayout(numOfChan: nat, sampleRate: nat, samples: seq<real>)
    ensures var w := WavFile(numOfChan, sampleRate, samples);
      && w[0..4] == Le32(0x46464952)
      && w[4..8] == Le32(|w| - 8)
      && w[8..12] == Le32(0x45564157)
  {
    WavFileChunks(numOfChan, sampleRate, samples);
    ChunkOfThree(WavFile(numOfChan, sampleRate, samples), 0, Le32(0x46464952), Le32(2 * |samples| + HeaderSize - 8), Le32(0x45564157));
  }

  /**
   * The first half of the `fmt ` chunk of a WAV file: the tag "fmt ", a
   * 16-octet chunk, format 1 (PCM) and the channel count, each as
   * `DataView.setUint16` or `setUint32` stores it.
   */
  lemma WavFormatLayout(numOfChan: nat, sampleRate: nat, samples: seq<real>)
    ensures var w := WavFile(numOfChan, sampleRate, samples);
      && w[12..16] == Le32(0x20746d66)
      && w[16..20] == Le32(16)
      && w[20..22] == Le16(1)
      && w[22..24] == Le16(numOfChan)
  {
    WavFileChunks(numOfChan, sampleRate, samples);
    ChunkOfFour(WavFile(numOfChan, sampleRate, samples), 12, Le32(0x20746d66), Le32(16), Le16(1), Le16(numOfChan));
  }

  /**
   * The second half of the `fmt ` chunk of a WAV file: the sample rate,
   * the byte rate (rate x 2 x channels), the block align (2 x channels)
   * and 16 bits per sample.
   */
  lemma WavRatesLayout(numOfChan: nat, sampleRate: nat, samples: seq<real>)
    ensures var w := WavFile(numOfChan, sampleRate, samples);
      && w[24..28] == Le32(sampleRate)
      && w[28..32] == Le32(sampleRate * 2 * numOfChan)
      && w[32..34] == Le16(numOfChan * 2)
      && w[34..36] == Le16(16)
  {
    WavFileChunks(numOfChan, sampleRate, samples);
    ChunkOfFour(WavFile(numOfChan, sampleRate, samples), 24, Le32(sampleRate), Le32(sampleRate * 2 * numOfChan), Le16(numOfChan * 2), Le16(16));
  }

  /**
   * The `data` chunk header of a WAV file: the tag "data" and the size of
   * the samples that follow, two octets each.
   */
  lemma WavDataLayout(numOfChan: nat, sampleRate: nat, samples: seq<real>)
    ensures var w := WavFile(numOfChan, sampleRate, samples);
      && w[36..40] == Le32(0x61746164)
      && w[40..44] == Le32(2 * |samples|)
  {
    WavFileChunks(numOfChan, sampleRate, samples);
    ChunkOfTwo(WavFile(numOfChan, sampleRate, samples), 36, Le32(0x61746164), Le32(2 * |samples|));
  }

  /**
   * Sample `k` of the data chunk, read back as element `22 + k` of an
   * `Int16Array` over the file (octet 44 + 2k), is the quantised sample.
   */
  lemma WavSampleAt(numOfChan: nat, sampleRate: nat, samples: seq<real>, k: nat)
    requires k < |samples|
    ensures 2 * (22 + k) + 2 <= |WavFile(numOfChan, sampleRate, samples)|
    ensures Int16At(WavFile(numOfChan, sampleRate, samples), 22 + k) == Quantize(samples[k])
  {
    var h := WavHeader(numOfChan, sampleRate, 2 * |samples| + HeaderSize);
    WithSamplesAt(h, samples, |samples|, k);
    Int16ReadBack(Quantize(samples[k]), WavFile(numOfChan, sampleRate, samples), 22 + k);
  }

  /**
   * A 16-bit sample decoded to a float (`SampleValue`) and quantised again
   * comes back unchanged when it is zero or negative and one lower when it
   * is positive: the decoder divides by 0x8000 while the encoder multiplies
   * positive values by 0x7FFF.
   */
  lemma QuantizeDecoded(v: int)
    requires -0x8000 <= v < 0x8000
    ensures Quantize(v as real / 32768.0) == if v <= 0 then v else v - 1
  {
    var x := v as real / 32768.0;
    assert x * 32768.0 == v as real;
    if v > 0 {
      assert Scale(x) == x * 32767.0 == v as real - x;
      assert 0.0 < x < 1.0;
    }
  }

  /**
   * For a sample inside [-1, 1] the stored integer, read back on the scale
   * of 0x8000, is within less than 2/0x8000 below and 1/0x8000 above it.
   */
  lemma QuantizeError(x: real)
    requires -1.0 <= x <= 1.0
    ensures x * 32768.0 - 2.0 < Quantize(x) as real < x * 32768.0 + 1.0
  {
    if x >= 0.0 {
      assert Scale(x) == x * 32767.0;
    }
  }
}

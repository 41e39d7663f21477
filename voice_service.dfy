/**
 * The studio service of services/geminiService.ts around the codec:
 * `preprocessText`, which falls back to the input text, and the audio half
 * of `generateVoiceOver`, which turns the base 64 PCM payload of the
 * text-to-speech reply into a mono 24 kHz WAV `data:` URL and a duration.
 * The calls to the model are not part of this model; their outcomes are
 * parameters.
 */
module VoiceService {
  import opened Wrappers
  import opened Bytes
  import Base64
  import AudioCodec

  /** The rate the reply's audio is decoded at (lines 134 and 136). */
  const TtsSampleRate: nat := 24000

  /** The reply's audio is decoded as a single channel (line 136). */
  const TtsChannels: nat := 1

  /**
   * `preprocessText`: the rewritten text the model replied with, or the
   * input text when the call failed (`reply` is `None`) or the reply text
   * is empty (the `response.text || text` fallback).
   */
  function PreprocessText(text: string, reply: Option<string>): (r: string)
    ensures r == text || (reply.Some? && r == reply.value)
    ensures reply.Some? && reply.value != "" ==> r == reply.value
    ensures reply.None? || reply.value == "" ==> r == text
    ensures r != "" <==> text != "" || (reply.Some? && reply.value != "")
  {
    if reply.Some? && reply.value != "" then reply.value else text
  }

  /** The media type and encoding that a `FileReader` puts in front of a WAV blob's data URL (RFC 2397). */
  const WavUrlPrefix: string := "data:audio/wav;base64,"

  /** `blobToDataURL` of a WAV blob: the prefix, then the base 64 text of the file, which decodes back to the file. */
  function DataUrl(wav: seq<byte>): (url: string)
    ensures |url| >= |WavUrlPrefix| && url[..|WavUrlPrefix|] == WavUrlPrefix
    ensures Base64.Decode(url[|WavUrlPrefix|..]) == Some(wav)
  {
    Base64.DecodeEncode(wav);
    var url := WavUrlPrefix + Base64.Encode(wav);
    assert url[|WavUrlPrefix|..] == Base64.Encode(wav);
    url
  }

  /** The float samples of a mono PCM payload: sample `k` is the `k`-th 16-bit integer over 0x8000. */
  function MonoSamples(pcm: seq<byte>): (s: seq<real>)
    ensures |s| == |pcm| / 2
    ensures forall k :: 0 <= k < |s| ==> 2 * k + 2 <= |pcm| && s[k] * 32768.0 == Int16At(pcm, k) as real
  {
    seq(|pcm| / 2, k requires 0 <= k < |pcm| / 2 => AudioCodec.SampleValue(pcm, k))
  }

  /** What `generateVoiceOver` returns: the WAV data URL and the duration in seconds. */
  datatype VoiceOver = VoiceOver(dataUrl: string, duration: real)

  /**
   * The audio half of `generateVoiceOver` (lines 127-144) for the payload
   * found in the reply (`None` when no part carries inline data). It fails
   * when there is no payload, when the strict RFC 4648 decoder rejects it
   * (which also rejects whitespace and missing padding), or when it holds less
   * than one sample (`createBuffer` refuses a zero length); otherwise the
   * URL carries the WAV file of the decoded samples and the duration is the
   * sample count over 24000.
   */
  method GenerateVoiceOver(base64Audio: Option<string>) returns (r: Result<VoiceOver>)
    ensures r.Ok? <==> && base64Audio.Some? && base64Audio.value != ""
                       && Base64.Decode(base64Audio.value).Some?
                       && |Base64.Decode(base64Audio.value).value| >= 2
    ensures r.Ok? ==> var pcm := Base64.Decode(base64Audio.value).value;
                      && r.value.dataUrl == DataUrl(AudioCodec.WavFile(TtsChannels, TtsSampleRate, MonoSamples(pcm)))
                      && r.value.duration * TtsSampleRate as real == (|pcm| / 2) as real
  {
    if base64Audio.None? || base64Audio.value == "" {
      return Err("No Audio Data");
    }
    var bytes := AudioCodec.Decode(base64Audio.value);
    if bytes.None? {
      return Err("InvalidCharacterError");
    }
    var data := bytes.value;
    ghost var pcm := data[..];
    var decoded := AudioCodec.DecodeAudioData(data, TtsSampleRate, TtsChannels);
    if decoded.Err? {
      return Err(decoded.message);
    }
    var buffer := decoded.value;
    var duration := buffer.Duration();
    MonoDuration(buffer, |pcm|);
    MonoInterleaved(buffer, pcm);
    assert buffer.length % buffer.numberOfChannels == 0;
    var wav := AudioCodec.AudioBufferToWav(buffer);
    var url := DataUrl(wav.value[..]);
    r := Ok(VoiceOver(url, duration));
  }

  /** A mono 24 kHz buffer of the samples of `n` octets lasts `n / 2` over 24000 seconds. */
  lemma MonoDuration(buffer: AudioCodec.AudioBuffer, n: nat)
    requires buffer.Valid() && buffer.sampleRate == TtsSampleRate && buffer.length == n / 2 / 1
    ensures buffer.Duration() * TtsSampleRate as real == (n / 2) as real
  {
    assert n / 2 / 1 == n / 2;
  }

  /** A mono buffer decoded from `pcm` interleaves to the payload's own samples, in order. */
  lemma MonoInterleaved(buffer: AudioCodec.AudioBuffer, pcm: seq<byte>)
    requires buffer.Valid() && buffer.numberOfChannels == 1
    requires buffer.length == |pcm| / 2 / 1
    requires forall c, i :: 0 <= c < 1 && 0 <= i < buffer.length ==>
               buffer.channelData[c, i] == AudioCodec.PcmSample(pcm, 1, c, i)
    ensures AudioCodec.Interleaved(buffer) == MonoSamples(pcm)
  {
    var s, m := AudioCodec.Interleaved(buffer), MonoSamples(pcm);
    forall k | 0 <= k < |s|
      ensures s[k] == m[k]
    {
      assert k % 1 == 0 && k / 1 == k;
      assert buffer.channelData[0, k] == AudioCodec.PcmSample(pcm, 1, 0, k);
    }
  }

  /**
   * Sample `k` of the WAV file built from a mono payload, read back at
   * `Int16Array` index `22 + k`, is the payload's sample `k` when that is
   * zero or negative and one lower when it is positive.
   */
  lemma MonoWavSample(pcm: seq<byte>, k: nat)
    requires 2 * k + 2 <= |pcm|
    ensures var w, v := AudioCodec.WavFile(TtsChannels, TtsSampleRate, MonoSamples(pcm)), Int16At(pcm, k);
      && 2 * (22 + k) + 2 <= |w|
      && Int16At(w, 22 + k) == if v <= 0 then v else v - 1
  {
    var samples := MonoSamples(pcm);
    var v := Int16At(pcm, k);
    assert samples[k] == v as real / 32768.0;
    AudioCodec.WavSampleAt(TtsChannels, TtsSampleRate, samples, k);
    AudioCodec.QuantizeDecoded(v);
  }
}

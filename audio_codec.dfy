/** The codec helpers of the live voice service: bytes to a Latin-1 binary
    string and base64 and back, 16-bit little-endian PCM framing of outgoing
    microphone samples, and de-interleaving of incoming PCM into channels.
    Samples are exact reals rather than IEEE floats; an int16 divided by
    32768 is exactly representable as a float32, so nothing is lost there. */
module AudioCodec {
  import opened Types
  import Base64

  // ---------------------------------------------------------------------
  // Binary strings, btoa and atob

  /** A string whose every character has a code below 256. */
  predicate IsBinaryString(s: string)
  {
    forall i :: 0 <= i < |s| ==> s[i] as int < 256
  }

  /** The binary string of a byte string: one character per byte, whose code is that byte. */
  function BinaryString(bytes: seq<Byte>): (s: string)
    ensures |s| == |bytes|
    ensures forall i :: 0 <= i < |bytes| ==> s[i] as int == bytes[i]
  {
    seq(|bytes|, i requires 0 <= i < |bytes| => bytes[i] as char)
  }

  /** The character codes of a binary string. */
  function CharCodes(s: string): (bytes: seq<Byte>)
    requires IsBinaryString(s)
    ensures |bytes| == |s|
    ensures forall i :: 0 <= i < |s| ==> bytes[i] == s[i] as int
  {
    seq(|s|, i requires 0 <= i < |s| && IsBinaryString(s) => s[i] as int)
  }

  lemma BinaryStringCodes(bytes: seq<Byte>)
    ensures IsBinaryString(BinaryString(bytes))
    ensures CharCodes(BinaryString(bytes)) == bytes
  {
  }

  /** `btoa`: base64 of the character codes; None stands for the
      InvalidCharacterError thrown for a character above U+00FF. */
  function Btoa(s: string): (r: Option<string>)
    ensures r.Some? <==> IsBinaryString(s)
  {
    if IsBinaryString(s) then Some(Base64.Encode(CharCodes(s))) else None
  }

  /** `atob`: forgiving-base64 decode, delivered as a binary string; None
      stands for the InvalidCharacterError it throws. */
  function Atob(s: string): (r: Option<string>)
    ensures r.Some? ==> IsBinaryString(r.value)
  {
    match Base64.Decode(s)
    case None => None
    case Some(bytes) => BinaryStringCodes(bytes); Some(BinaryString(bytes))
  }

  /** `atob` inverts `btoa` on every string `btoa` accepts. */
  lemma AtobBtoa(s: string)
    requires IsBinaryString(s)
    ensures Btoa(s).Some? && Atob(Btoa(s).value) == Some(s)
  {
    Base64.EncodeDecodeRoundTrip(CharCodes(s));
    assert BinaryString(CharCodes(s)) == s;
  }

  /** `encode`: bytes to a binary string, one character per byte, then `btoa`. */
  method Encode(bytes: seq<Byte>) returns (b64: string)
    ensures Btoa(BinaryString(bytes)) == Some(b64)
    ensures b64 == Base64.Encode(bytes)
  {
    var binary := "";
    var i := 0;
    while i < |bytes|
      invariant 0 <= i <= |bytes|
      invariant binary == BinaryString(bytes[..i])
    {
      binary := binary + [bytes[i] as char];
      i := i + 1;
    }
    assert bytes[..i] == bytes;
    BinaryStringCodes(bytes);
    b64 := Btoa(binary).value;
  }

  /** `decode`: `atob`, then one byte per character of the binary string,
      equal to that character's code. None: `atob` threw. */
  method Decode(b64: string) returns (r: Option<seq<Byte>>)
    ensures r == Base64.Decode(b64)
    ensures r.Some? <==> Atob(b64).Some?
    ensures r.Some? ==> BinaryString(r.value) == Atob(b64).value
  {
    var binaryString := Atob(b64);
    if binaryString.None? {
      return None;
    }
    var s := binaryString.value;
    var bytes := new Byte[|s|];
    var i := 0;
    while i < |s|
      invariant 0 <= i <= |s|
      invariant forall k :: 0 <= k < i ==> bytes[k] == s[k] as int
    {
      bytes[i] := s[i] as int;
      i := i + 1;
    }
    assert BinaryString(bytes[..]) == s;
    assert bytes[..] == Base64.Decode(b64).value;
    r := Some(bytes[..]);
  }

  /** The transport-text round trip through the two loops: `decode(encode(b)) == b`. */
  method EncodeThenDecode(bytes: seq<Byte>) returns (back: Option<seq<Byte>>)
    ensures back == Some(bytes)
  {
    var b64 := Encode(bytes);
    back := Decode(b64);
    Base64.EncodeDecodeRoundTrip(bytes);
  }

  // ---------------------------------------------------------------------
  // 16-bit little-endian PCM

  /** The signed 16-bit value stored in a little-endian byte pair. */
  function Int16FromBytes(lo: Byte, hi: Byte): (x: Int16)
    ensures (x - (lo + 256 * hi)) % 65536 == 0
  {
    var u := lo + 256 * hi;
    if u >= 32768 then u - 65536 else u
  }

  /** The little-endian byte pair of a signed 16-bit value (two's complement). */
  function BytesOfInt16(x: Int16): (pair: seq<Byte>)
    ensures |pair| == 2
    ensures Int16FromBytes(pair[0], pair[1]) == x
  {
    var u := if x < 0 then x + 65536 else x;
    [u % 256, u / 256]
  }

  lemma BytesOfInt16FromBytes(lo: Byte, hi: Byte)
    ensures BytesOfInt16(Int16FromBytes(lo, hi)) == [lo, hi]
  {
  }

  /** The Int16Array view of a byte buffer with an even length. */
  function Int16View(bytes: seq<Byte>): (xs: seq<Int16>)
    requires |bytes| % 2 == 0
    ensures |xs| == |bytes| / 2
    decreases |bytes|
  {
    if bytes == [] then []
    else [Int16FromBytes(bytes[0], bytes[1])] + Int16View(bytes[2..])
  }

  /** The bytes under an Int16Array: each value as a little-endian pair. */
  function LittleEndianBytes(xs: seq<Int16>): (bytes: seq<Byte>)
    ensures |bytes| == 2 * |xs|
  {
    if xs == [] then []
    else BytesOfInt16(xs[0]) + LittleEndianBytes(xs[1..])
  }

  lemma {:induction false} ViewOfLittleEndian(xs: seq<Int16>)
    ensures Int16View(LittleEndianBytes(xs)) == xs
  {
    if xs != [] {
      var bytes := LittleEndianBytes(xs);
      assert bytes[2..] == LittleEndianBytes(xs[1..]);
      ViewOfLittleEndian(xs[1..]);
    }
  }

  lemma {:induction false} LittleEndianOfView(bytes: seq<Byte>)
    requires |bytes| % 2 == 0
    ensures LittleEndianBytes(Int16View(bytes)) == bytes
    decreases |bytes|
  {
    if bytes != [] {
      var xs := Int16View(bytes);
      assert xs[1..] == Int16View(bytes[2..]);
      LittleEndianOfView(bytes[2..]);
      BytesOfInt16FromBytes(bytes[0], bytes[1]);
      assert bytes == [bytes[0], bytes[1]] + bytes[2..];
    }
  }

  // ---------------------------------------------------------------------
  // ToInt16 (ECMA-262, section 7.1.8), applied to exact reals

  /** Truncation toward zero. */
  function Truncate(x: real): (n: int)
    ensures x >= 0.0 ==> n as real <= x < n as real + 1.0
    ensures x < 0.0 ==> n as real - 1.0 < x <= n as real
  {
    if x >= 0.0 then x.Floor else -((-x).Floor)
  }

  /** The value an Int16Array stores for a number: truncate toward zero,
      then wrap modulo 2^16 into [-32768, 32767]; nothing is clamped. */
  function ToInt16(x: real): (r: Int16)
    ensures (r - Truncate(x)) % 65536 == 0
  {
    var m := Truncate(x) % 65536;
    if m >= 32768 then m - 65536 else m
  }

  /** A value whose truncation already fits is stored unchanged. */
  lemma ToInt16InRange(x: real)
    requires -32768 <= Truncate(x) < 32768
    ensures ToInt16(x) == Truncate(x)
  {
  }

  /** A full-scale sample of exactly 1.0 wraps to the most negative value. */
  lemma FullScaleSampleWraps()
    ensures ToInt16(1.0 * 32768.0) == -32768
  {
    assert Truncate(32768.0) == 32768;
  }

  /** Samples in [-1, 1) are scaled without wrapping. */
  lemma UnitSampleFits(x: real)
    requires -1.0 <= x < 1.0
    ensures ToInt16(x * 32768.0) == Truncate(x * 32768.0)
  {
    ToInt16InRange(x * 32768.0);
  }

  // ---------------------------------------------------------------------
  // Outgoing microphone frames

  datatype Blob = Blob(data: string, mimeType: string)

  const PcmMimeType: string := "audio/pcm;rate=16000"

  /** `createPcmBlob`: each sample scaled by 32768 and stored into an
      Int16Array, whose bytes are then base64 encoded. */
  method CreatePcmBlob(data: seq<real>) returns (blob: Blob)
    ensures blob.mimeType == PcmMimeType
    ensures Base64.Decode(blob.data).Some?
    ensures var bytes := Base64.Decode(blob.data).value;
      && |bytes| == 2 * |data|
      && |Int16View(bytes)| == |data|
      && forall i :: 0 <= i < |data| ==> Int16View(bytes)[i] == ToInt16(data[i] * 32768.0)
  {
    var int16 := new Int16[|data|];
    var i := 0;
    while i < |data|
      invariant 0 <= i <= |data|
      invariant forall k :: 0 <= k < i ==> int16[k] == ToInt16(data[k] * 32768.0)
    {
      int16[i] := ToInt16(data[i] * 32768.0);
      i := i + 1;
    }
    var bytes := LittleEndianBytes(int16[..]);
    var b64 := Encode(bytes);
    blob := Blob(b64, PcmMimeType);
    Base64.EncodeDecodeRoundTrip(bytes);
    ViewOfLittleEndian(int16[..]);
  }

  // ---------------------------------------------------------------------
  // Incoming audio chunks

  datatype AudioError = InvalidCharacterError | RangeError | NotSupportedError

  datatype Result<T> = Ok(value: T) | Err(error: AudioError)

  /** A decoded buffer: its sample rate, its frame count and one sample
      sequence per channel. */
  datatype AudioBuffer = AudioBuffer(sampleRate: nat, length: nat, channels: seq<seq<real>>)

  /** Limits under which the audio context's `createBuffer` throws
      NotSupportedError (Web Audio API): no channels, more than 32, a zero
      length, or a sample rate outside [3000, 768000]. */
  predicate CreateBufferRejects(numChannels: nat, length: nat, sampleRate: nat)
  {
    numChannels == 0 || numChannels > 32 || length == 0 || sampleRate < 3000 || sampleRate > 768000
  }

  lemma FrameIndexBound(i: nat, c: nat, n: nat, count: nat)
    requires c < n && i < count / n
    ensures i * n + c < count
  {
    assert (i + 1) * n <= (count / n) * n;
  }

  /** Sample `i` of channel `c`: the int16 at `i * n + c`, divided by 32768. */
  function ChannelSample(samples: seq<Int16>, n: nat, c: nat, i: nat): (v: real)
    requires c < n && i < |samples| / n
    ensures -1.0 <= v < 1.0
  {
    FrameIndexBound(i, c, n, |samples|);
    samples[i * n + c] as real / 32768.0
  }

  /** The channels of interleaved samples. */
  function Deinterleave(samples: seq<Int16>, n: nat): (channels: seq<seq<real>>)
    requires n > 0
  {
    seq(n, c requires 0 <= c < n => seq(|samples| / n, i requires 0 <= i < |samples| / n => ChannelSample(samples, n, c, i)))
  }

  /** What `decodeAudioData` yields for a byte buffer: a RangeError for an
      odd byte count (no Int16Array view), the `createBuffer` error, or the
      de-interleaved channels of `frameCount = int16Count / numChannels` frames. */
  function DecodedAudio(data: seq<Byte>, sampleRate: nat, numChannels: nat): (r: Result<AudioBuffer>)
    ensures r == Err(RangeError) <==> |data| % 2 == 1
    ensures r.Ok? ==>
      && r.value.sampleRate == sampleRate && |r.value.channels| == numChannels
      && 0 < r.value.length * numChannels <= |data| / 2
  {
    if |data| % 2 != 0 then Err(RangeError)
    else if numChannels == 0 || CreateBufferRejects(numChannels, |Int16View(data)| / numChannels, sampleRate)
    then Err(NotSupportedError)
    else Ok(AudioBuffer(sampleRate, |Int16View(data)| / numChannels, Deinterleave(Int16View(data), numChannels)))
  }

  /** `decodeAudioData`: fills one Float32Array per channel by index arithmetic. */
  method DecodeAudioData(data: seq<Byte>, sampleRate: nat, numChannels: nat) returns (r: Result<AudioBuffer>)
    ensures r == DecodedAudio(data, sampleRate, numChannels)
  {
    if |data| % 2 != 0 {
      return Err(RangeError);
    }
    var dataInt16 := Int16View(data);
    if numChannels == 0 {
      return Err(NotSupportedError);
    }
    var frameCount := |dataInt16| / numChannels;
    if CreateBufferRejects(numChannels, frameCount, sampleRate) {
      return Err(NotSupportedError);
    }
    var channels: seq<seq<real>> := [];
    var channel := 0;
    while channel < numChannels
      invariant 0 <= channel <= numChannels
      invariant |channels| == channel
      invariant forall c :: 0 <= c < channel ==> channels[c] == Deinterleave(dataInt16, numChannels)[c]
    {
      var channelData := new real[frameCount];
      var i := 0;
      while i < frameCount
        invariant 0 <= i <= frameCount
        invariant forall k :: 0 <= k < i ==> channelData[k] == ChannelSample(dataInt16, numChannels, channel, k)
      {
        FrameIndexBound(i, channel, numChannels, |dataInt16|);
        channelData[i] := dataInt16[i * numChannels + channel] as real / 32768.0;
        i := i + 1;
      }
      assert channelData[..] == Deinterleave(dataInt16, numChannels)[channel];
      channels := channels + [channelData[..]];
      channel := channel + 1;
    }
    assert channels == Deinterleave(dataInt16, numChannels);
    r := Ok(AudioBuffer(sampleRate, frameCount, channels));
  }

  /** A base64 audio payload taken through `decode` and then
      `decodeAudioData`: a payload `atob` rejects is an
      InvalidCharacterError. */
  function AudioFromBase64(b64: string, sampleRate: nat, numChannels: nat): (r: Result<AudioBuffer>)
    ensures Base64.Decode(b64).None? ==> r == Err(InvalidCharacterError)
    ensures r.Ok? ==> r.value.sampleRate == sampleRate && |r.value.channels| == numChannels
  {
    match Base64.Decode(b64)
    case None => Err(InvalidCharacterError)
    case Some(bytes) => DecodedAudio(bytes, sampleRate, numChannels)
  }

  /** Playback length of a buffer in seconds (exact). */
  function Duration(buffer: AudioBuffer): (d: real)
    requires buffer.sampleRate > 0
    ensures d >= 0.0
    ensures d * buffer.sampleRate as real == buffer.length as real
  {
    buffer.length as real / buffer.sampleRate as real
  }

  /** A decoded buffer exists exactly when the bytes form whole int16
      values and `createBuffer` accepts the shape; it then has
      `int16Count / numChannels` frames in each of its channels. */
  lemma DecodedAudioShape(data: seq<Byte>, sampleRate: nat, numChannels: nat)
    ensures DecodedAudio(data, sampleRate, numChannels).Ok? <==>
      && |data| % 2 == 0 && 1 <= numChannels <= 32
      && (|data| / 2) / numChannels > 0 && 3000 <= sampleRate <= 768000
    ensures DecodedAudio(data, sampleRate, numChannels).Ok? ==>
      var buf := DecodedAudio(data, sampleRate, numChannels).value;
      && buf.sampleRate == sampleRate
      && buf.length == (|data| / 2) / numChannels
      && |buf.channels| == numChannels
      && (forall c :: 0 <= c < numChannels ==> |buf.channels[c]| == buf.length)
  {
  }

  /** Sample `i` of channel `c` of a decoded buffer is int16 number
      `i * numChannels + c`, divided by 32768. */
  lemma DecodedSample(data: seq<Byte>, sampleRate: nat, numChannels: nat, c: nat, i: nat)
    requires DecodedAudio(data, sampleRate, numChannels).Ok?
    requires c < numChannels && i < DecodedAudio(data, sampleRate, numChannels).value.length
    ensures i * numChannels + c < |data| / 2
    ensures DecodedAudio(data, sampleRate, numChannels).value.channels[c][i]
         == Int16View(data)[i * numChannels + c] as real / 32768.0
  {
    var view := Int16View(data);
    assert DecodedAudio(data, sampleRate, numChannels).value.channels == Deinterleave(view, numChannels);
    DeinterleavedSample(view, numChannels, c, i);
  }

  lemma DeinterleavedSample(samples: seq<Int16>, n: nat, c: nat, i: nat)
    requires c < n && i < |samples| / n
    ensures i * n + c < |samples|
    ensures Deinterleave(samples, n)[c][i] == samples[i * n + c] as real / 32768.0
  {
    FrameIndexBound(i, c, n, |samples|);
    assert Deinterleave(samples, n)[c][i] == ChannelSample(samples, n, c, i);
  }

  /** A mono chunk: one channel holding every int16 of the buffer, in
      order, divided by 32768. */
  lemma MonoChunk(data: seq<Byte>, sampleRate: nat)
    requires |data| % 2 == 0 && |data| >= 2 && 3000 <= sampleRate <= 768000
    ensures DecodedAudio(data, sampleRate, 1).Ok?
    ensures var buf := DecodedAudio(data, sampleRate, 1).value;
      && |buf.channels| == 1
      && buf.length == |data| / 2 == |buf.channels[0]|
      && forall i :: 0 <= i < buf.length ==> buf.channels[0][i] == Int16View(data)[i] as real / 32768.0
  {
  }

  /** Framing a decoded mono chunk again gives back the original bytes:
      the PCM quantisation round trip is exact. */
  lemma PcmRoundTrip(data: seq<Byte>, sampleRate: nat)
    requires |data| % 2 == 0 && |data| >= 2 && 3000 <= sampleRate <= 768000
    ensures DecodedAudio(data, sampleRate, 1).Ok?
    ensures var samples := DecodedAudio(data, sampleRate, 1).value.channels[0];
      LittleEndianBytes(seq(|samples|, i requires 0 <= i < |samples| => ToInt16(samples[i] * 32768.0))) == data
  {
    MonoChunk(data, sampleRate);
    var samples := DecodedAudio(data, sampleRate, 1).value.channels[0];
    var view := Int16View(data);
    var requantised := seq(|samples|, i requires 0 <= i < |samples| => ToInt16(samples[i] * 32768.0));
    forall i | 0 <= i < |samples|
      ensures requantised[i] == view[i]
    {
      assert samples[i] * 32768.0 == view[i] as real;
      assert Truncate(view[i] as real) == view[i];
      ToInt16InRange(view[i] as real);
    }
    assert requantised == view;
    LittleEndianOfView(data);
  }
}

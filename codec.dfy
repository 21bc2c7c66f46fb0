/** The audio helpers of the live conversation: `createBlob` (outbound frames),
    `decode` and `decodeAudioData` (inbound chunks). */
module Codec {
  import opened Wrappers
  import opened Base64
  import opened Pcm

  /** The descriptor every outbound frame carries: 16-bit PCM at 16 kHz. */
  const PcmMimeType: string := "audio/pcm;rate=16000"

  datatype Blob = Blob(data: string, mimeType: string)

  /** The 16-bit values `createBlob` stores for a frame of samples. */
  function Quantized(samples: seq<real>): (ws: seq<int16>)
    ensures |ws| == |samples|
  {
    seq(|samples|, i requires 0 <= i < |samples| => Quantize(samples[i]))
  }

  /** `createBlob`: each sample is stored into an `Int16Array`, the array's
      buffer is read byte by byte into a binary string and that string is
      base64-encoded. */
  method CreateBlob(data: array<real>) returns (blob: Blob)
    ensures blob.mimeType == PcmMimeType
    ensures blob.data == Encode(LittleEndian(Quantized(data[..])))
    ensures Atob(blob.data) == Some(Binary(LittleEndian(Quantized(data[..]))))
  {
    var l := data.Length;
    var int16 := new int16[l];
    for i := 0 to l
      invariant forall k :: 0 <= k < i ==> int16[k] == Quantize(data[k])
    {
      int16[i] := Quantize(data[i]);
    }
    assert int16[..] == Quantized(data[..]);

    var bytes := LittleEndian(int16[..]);
    var len := |bytes|;
    var binary := "";
    for i := 0 to len
      invariant binary == Binary(bytes[..i])
    {
      binary := binary + [bytes[i] as char];
    }
    assert bytes[..len] == bytes;
    AtobInvertsBtoa(bytes);
    var b64 := Btoa(binary);
    blob := Blob(b64.value, PcmMimeType);
  }

  /** `decode`: `atob` followed by copying each code unit into a byte array;
      `atob`'s InvalidCharacterError is the None case. */
  method Decode(base64: string) returns (r: Option<array<byte>>)
    ensures r.Some? <==> Atob(base64).Some?
    ensures r.Some? ==> r.value[..] == Codes(Atob(base64).value)
  {
    var decoded := Atob(base64);
    if decoded.None? {
      return None;
    }
    var binaryString := decoded.value;
    var len := |binaryString|;
    var bytes := new byte[len];
    for i := 0 to len
      invariant forall k :: 0 <= k < i ==> bytes[k] == binaryString[k] as int
    {
      bytes[i] := binaryString[i] as int;
    }
    return Some(bytes);
  }

  /** `decode` inverts the base64 step of `createBlob`: the bytes given to
      `btoa` come back, one byte per code unit. */
  lemma DecodeInvertsBtoa(b: seq<byte>)
    ensures Btoa(Binary(b)).Some?
    ensures Atob(Btoa(Binary(b)).value).Some?
    ensures Codes(Atob(Btoa(Binary(b)).value).value) == b
  {
    AtobInvertsBtoa(b);
    assert Codes(Binary(b)) == b;
  }

  datatype AudioError =
    | RangeError    // `new Int16Array(buffer)` over an odd number of bytes
    | NotSupported  // `createBuffer` refuses the channel count, length or rate

  /** The largest channel count `createBuffer` accepts in current browsers. */
  const MaxChannels: nat := 32

  /** Channel `c` of interleaved samples: frame `i` is sample `i * k + c`,
      scaled to [-1, 1). */
  function Deinterleave(ws: seq<int16>, k: nat): (chans: seq<seq<real>>)
    requires k > 0
    ensures |chans| == k
    ensures forall c :: 0 <= c < k ==> |chans[c]| == |ws| / k
  {
    seq(k, c requires 0 <= c < k =>
      seq(|ws| / k, i requires 0 <= i < |ws| / k => FrameIndexBound(|ws|, k, i, c); ToFloat(ws[i * k + c])))
  }

  lemma FrameIndexBound(n: nat, k: nat, i: nat, c: nat)
    requires k > 0 && i < n / k && c < k
    ensures i * k + c < n
  {
    assert i + 1 <= n / k;
    assert (i + 1) * k <= (n / k) * k <= n;
  }

  /** When the sample count is a multiple of the channel count, every sample
      lands in exactly one channel and frame. */
  lemma DeinterleaveCovers(ws: seq<int16>, k: nat, j: nat)
    requires k > 0 && |ws| % k == 0 && j < |ws|
    ensures Deinterleave(ws, k)[j % k][j / k] == ToFloat(ws[j])
  {
    assert j == (j / k) * k + j % k;
    assert j / k < |ws| / k by {
      assert (j / k) * k <= j < |ws| == (|ws| / k) * k;
    }
  }

  /** Whether `createBuffer` accepts the arguments. */
  predicate BufferSupported(numChannels: nat, frameCount: nat, sampleRate: int)
  {
    0 < numChannels <= MaxChannels && frameCount > 0 && 3000 <= sampleRate <= 768000
  }

  /** `decodeAudioData`: the bytes are viewed as 16-bit values, a buffer of
      `numChannels` channels of `length / numChannels` frames is created (the
      fractional frame count truncated), and each channel is filled with its
      de-interleaved samples divided by 32768. */
  method DecodeAudioData(data: array<byte>, sampleRate: int, numChannels: nat)
    returns (r: Result<array2<real>, AudioError>)
    ensures data.Length % 2 != 0 ==> r == Failure(RangeError)
    ensures data.Length % 2 == 0 && numChannels == 0 ==> r == Failure(NotSupported)
    ensures data.Length % 2 == 0 && numChannels > 0 ==>
      (r.Success? <==> BufferSupported(numChannels, data.Length / 2 / numChannels, sampleRate))
    ensures r.Failure? ==> r.error == if data.Length % 2 != 0 then RangeError else NotSupported
    ensures r.Success? ==>
      data.Length % 2 == 0 && numChannels > 0 &&
      r.value.Length0 == numChannels && r.value.Length1 == data.Length / 2 / numChannels &&
      forall c, i :: 0 <= c < r.value.Length0 && 0 <= i < r.value.Length1 ==>
        r.value[c, i] == Deinterleave(Int16View(data[..]), numChannels)[c][i]
  {
    if data.Length % 2 != 0 {
      return Failure(RangeError);
    }
    var dataInt16 := Int16View(data[..]);
    if numChannels == 0 {
      return Failure(NotSupported);
    }
    var frameCount := |dataInt16| / numChannels;
    if !BufferSupported(numChannels, frameCount, sampleRate) {
      return Failure(NotSupported);
    }
    var buffer := new real[numChannels, frameCount];
    ghost var chans := Deinterleave(dataInt16, numChannels);
    for channel := 0 to numChannels
      invariant forall c, i :: 0 <= c < channel && 0 <= i < frameCount ==> buffer[c, i] == chans[c][i]
    {
      for i := 0 to frameCount
        invariant forall c, i' :: 0 <= c < channel && 0 <= i' < frameCount ==> buffer[c, i'] == chans[c][i']
        invariant forall i' :: 0 <= i' < i ==> buffer[channel, i'] == chans[channel][i']
      {
        FrameIndexBound(|dataInt16|, numChannels, i, channel);
        buffer[channel, i] := ToFloat(dataInt16[i * numChannels + channel]);
      }
    }
    return Success(buffer);
  }

  /** Every decoded value lies in [-1, 1). */
  lemma DecodedRange(ws: seq<int16>, k: nat, c: nat, i: nat)
    requires k > 0 && c < k && i < |ws| / k
    ensures -1.0 <= Deinterleave(ws, k)[c][i] < 1.0
  {
  }

  /** Mono: the 2·n bytes whose base64 `createBlob` sends (see CreateBlob)
      read back, frame by frame, as the 16-bit values it stored. */
  lemma MonoReadsBackCreateBlob(samples: seq<real>)
    ensures |LittleEndian(Quantized(samples))| == 2 * |samples|
    ensures Int16View(LittleEndian(Quantized(samples))) == Quantized(samples)
    ensures forall i :: 0 <= i < |samples| ==>
      Deinterleave(Int16View(LittleEndian(Quantized(samples))), 1)[0][i] == ToFloat(Quantize(samples[i]))
  {
    MonoReadsBack(Quantized(samples));
  }

  /** Mono read-back of any 16-bit values laid out little-endian. */
  lemma MonoReadsBack(ws: seq<int16>)
    ensures Int16View(LittleEndian(ws)) == ws
    ensures forall i :: 0 <= i < |ws| ==> Deinterleave(Int16View(LittleEndian(ws)), 1)[0][i] == ToFloat(ws[i])
  {
    ReadBack(ws);
  }
}

/**
 Decoding a byte stream into 16-bit samples chunk by chunk
 (apps/web/lib/voice-session.ts, `toPcm16`).
 */
module Pcm16 {
  import opened Wrappers

  newtype Byte = b: int | 0 <= b < 256
  newtype Sample = s: int | -0x8000 <= s < 0x8000

  /** Two bytes, low one first, as a signed sample; the halves do not overlap, so adding them is or-ing them. */
  function ToSample(low: Byte, high: Byte): Sample {
    var unsigned := low as int + 256 * high as int;
    if unsigned >= 0x8000 then (unsigned - 0x10000) as Sample else unsigned as Sample
  }

  /** The samples of an undivided stream; a last odd byte is left over. */
  function Decode(stream: seq<Byte>): (samples: seq<Sample>) {
    if |stream| < 2 then []
    else [ToSample(stream[0], stream[1])] + Decode(stream[2..])
  }

  function Leftover(stream: seq<Byte>): Option<Byte> {
    if |stream| % 2 == 1 then Some(stream[|stream| - 1]) else None
  }

  function Carried(carry: Option<Byte>): seq<Byte> {
    if carry.Some? then [carry.value] else []
  }

  lemma {:induction false} DecodeAt(stream: seq<Byte>, i: nat)
    requires 2 * i + 1 < |stream|
    ensures |Decode(stream)| == |stream| / 2
    ensures Decode(stream)[i] == ToSample(stream[2 * i], stream[2 * i + 1])
  {
    DecodeLength(stream);
    if i > 0 {
      DecodeAt(stream[2..], i - 1);
    }
  }

  lemma {:induction false} DecodeLength(stream: seq<Byte>)
    ensures |Decode(stream)| == |stream| / 2
  {
    if |stream| >= 2 {
      DecodeLength(stream[2..]);
    }
  }

  /** One chunk, with the byte carried over from the chunk before. */
  method ToPcm16(bytes: seq<Byte>, carry: Option<Byte>) returns (pcm: array<Sample>, remainder: Option<Byte>)
    ensures fresh(pcm)
    ensures pcm[..] == Decode(Carried(carry) + bytes)
    ensures remainder == Leftover(Carried(carry) + bytes)
  {
    ghost var stream := Carried(carry) + bytes;
    DecodeLength(stream);
    var length := |bytes| + if carry.None? then 0 else 1;
    pcm := new Sample[length / 2](_ => 0);
    for i := 0 to pcm.Length
      invariant forall k :: 0 <= k < i ==> pcm[k] == Decode(stream)[k]
    {
      var low := if i == 0 && carry.Some? then carry.value else bytes[2 * i - if carry.None? then 0 else 1];
      var high := bytes[2 * i + if carry.None? then 1 else 0];
      DecodeAt(stream, i);
      pcm[i] := ToSample(low, high);
    }
    remainder := if length % 2 == 1 then (if |bytes| > 0 then Some(bytes[|bytes| - 1]) else carry) else None;
  }

  /** Cutting a stream at an even place cuts the samples there. */
  lemma {:induction false} DecodeSplits(a: seq<Byte>, b: seq<Byte>)
    requires |a| % 2 == 0
    ensures Decode(a + b) == Decode(a) + Decode(b)
  {
    if a == [] {
      assert a + b == b;
    } else {
      assert (a + b)[2..] == a[2..] + b;
      DecodeSplits(a[2..], b);
    }
  }

  /** Carrying the odd byte over loses and doubles nothing, wherever the stream is cut. */
  lemma CarryIsExact(received: seq<Byte>, chunk: seq<Byte>)
    ensures Decode(received + chunk) == Decode(received) + Decode(Carried(Leftover(received)) + chunk)
    ensures Leftover(received + chunk) == Leftover(Carried(Leftover(received)) + chunk)
  {
    var even := received[..|received| - |received| % 2];
    assert received == even + Carried(Leftover(received));
    assert received + chunk == even + (Carried(Leftover(received)) + chunk);
    DecodeSplits(even, Carried(Leftover(received)) + chunk);
    DecodeSplits(even, Carried(Leftover(received)));
  }

  ghost function Concat(chunks: seq<seq<Byte>>): seq<Byte> {
    if chunks == [] then [] else Concat(chunks[..|chunks| - 1]) + chunks[|chunks| - 1]
  }

  /** Decoding a list of chunks with the carry threaded through gives the undivided stream's samples. */
  method DecodeChunks(chunks: seq<seq<Byte>>) returns (samples: seq<Sample>, carry: Option<Byte>)
    ensures samples == Decode(Concat(chunks)) && carry == Leftover(Concat(chunks))
  {
    samples, carry := [], None;
    for i := 0 to |chunks|
      invariant samples == Decode(Concat(chunks[..i])) && carry == Leftover(Concat(chunks[..i]))
    {
      assert chunks[..i + 1][..i] == chunks[..i];
      CarryIsExact(Concat(chunks[..i]), chunks[i]);
      var pcm, remainder := ToPcm16(chunks[i], carry);
      samples, carry := samples + pcm[..], remainder;
    }
    assert chunks[..|chunks|] == chunks;
  }
}

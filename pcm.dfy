/** Decoding of inbound 16-bit linear PCM: the bytes of a chunk are read as
    little-endian signed 16-bit samples and each sample is normalised by 32768.
    The normalised value k / 32768 of a 16-bit k is exact in single precision,
    so it is modelled as a real number. */
module Pcm {
  import opened Protocol

  predicate IsInt16(v: int)
  {
    -32768 <= v < 32768
  }

  /** The signed sample stored little-endian in bytes 2i and 2i+1. */
  function Int16At(pcm: seq<byte>, i: nat): (v: int)
    requires 2 * i + 1 < |pcm|
    ensures IsInt16(v)
  {
    var u := pcm[2 * i] as int + 256 * pcm[2 * i + 1] as int;
    if u < 32768 then u else u - 65536
  }

  /** All whole samples of a chunk, in order. */
  function Decode(pcm: seq<byte>): (vs: seq<int>)
    ensures |vs| == |pcm| / 2
  {
    seq(|pcm| / 2, i requires 0 <= i < |pcm| / 2 => Int16At(pcm, i))
  }

  /** The reference encoding: each sample as two bytes, low byte first. */
  function Int16Bytes(v: int): (b: seq<byte>)
    requires IsInt16(v)
    ensures |b| == 2
  {
    var u := if v < 0 then v + 65536 else v;
    [(u % 256) as byte, (u / 256) as byte]
  }

  function Encode(vs: seq<int>): (b: seq<byte>)
    requires forall i :: 0 <= i < |vs| ==> IsInt16(vs[i])
    ensures |b| == 2 * |vs|
  {
    if vs == [] then [] else Int16Bytes(vs[0]) + Encode(vs[1..])
  }

  lemma {:induction false} EncodeAt(vs: seq<int>, i: nat)
    requires forall k :: 0 <= k < |vs| ==> IsInt16(vs[k])
    requires i < |vs|
    ensures Encode(vs)[2 * i] == Int16Bytes(vs[i])[0]
    ensures Encode(vs)[2 * i + 1] == Int16Bytes(vs[i])[1]
  {
    if i > 0 {
      EncodeAt(vs[1..], i - 1);
    }
  }

  lemma Int16BytesValue(v: int)
    requires IsInt16(v)
    ensures Int16Bytes(v)[0] as int + 256 * Int16Bytes(v)[1] as int == (if v < 0 then v + 65536 else v)
  {
  }

  /** Decoding inverts the little-endian encoding. */
  lemma DecodeEncode(vs: seq<int>)
    requires forall i :: 0 <= i < |vs| ==> IsInt16(vs[i])
    ensures Decode(Encode(vs)) == vs
  {
    var b := Encode(vs);
    assert |b| / 2 == |vs|;
    forall i | 0 <= i < |vs|
      ensures Decode(b)[i] == vs[i]
    {
      EncodeAt(vs, i);
      Int16BytesValue(vs[i]);
      var u := b[2 * i] as int + 256 * b[2 * i + 1] as int;
      assert u == if vs[i] < 0 then vs[i] + 65536 else vs[i];
      assert Int16At(b, i) == vs[i];
    }
  }

  /** Re-encoding the sample read from two bytes gives back those bytes. */
  lemma Int16BytesOfPair(pcm: seq<byte>, i: nat)
    requires 2 * i + 1 < |pcm|
    ensures Int16Bytes(Int16At(pcm, i)) == [pcm[2 * i], pcm[2 * i + 1]]
  {
    var lo, hi := pcm[2 * i] as int, pcm[2 * i + 1] as int;
    var u := lo + 256 * hi;
    assert (if Int16At(pcm, i) < 0 then Int16At(pcm, i) + 65536 else Int16At(pcm, i)) == u;
    assert u % 256 == lo && u / 256 == hi;
  }

  /** Encoding the decoded samples gives back every byte of an even-length chunk. */
  lemma EncodeDecode(pcm: seq<byte>)
    requires |pcm| % 2 == 0
    ensures Encode(Decode(pcm)) == pcm
  {
    var vs := Decode(pcm);
    var b := Encode(vs);
    assert |b| == |pcm|;
    forall j | 0 <= j < |pcm|
      ensures b[j] == pcm[j]
    {
      var i := j / 2;
      assert 2 * i == j || 2 * i + 1 == j;
      assert 2 * i + 1 < |pcm|;
      EncodeAt(vs, i);
      assert vs[i] == Int16At(pcm, i);
      Int16BytesOfPair(pcm, i);
    }
  }

  /** A sample as the playback buffer holds it. */
  function Normalize(v: int): (x: real)
    requires IsInt16(v)
    ensures -1.0 <= x < 1.0
    ensures x * 32768.0 == v as real
  {
    v as real / 32768.0
  }

  /** The float buffer `playAudioChunk` fills from a chunk. */
  function Samples(pcm: seq<byte>): (xs: seq<real>)
    ensures |xs| == |pcm| / 2
  {
    seq(|pcm| / 2, i requires 0 <= i < |pcm| / 2 => Normalize(Int16At(pcm, i)))
  }

  /** Normalisation loses nothing: two even-length chunks with the same buffer are the same bytes. */
  lemma SamplesInjective(p: seq<byte>, q: seq<byte>)
    requires |p| % 2 == 0 && |q| % 2 == 0
    requires Samples(p) == Samples(q)
    ensures p == q
  {
    assert |p| == |q|;
    assert Decode(p) == Decode(q) by {
      forall i | 0 <= i < |p| / 2
        ensures Decode(p)[i] == Decode(q)[i]
      {
        assert Samples(p)[i] == Samples(q)[i];
      }
    }
    EncodeDecode(p);
    EncodeDecode(q);
  }
}

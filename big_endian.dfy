/** Unsigned big-endian integers over bytes, as `Buffer.writeUInt32BE`
    and `Buffer.readUInt32BE` store them. */
module BigEndian {
  import opened Messages

  /** 256 to the power k: one more than the largest k-byte value. */
  function Pow256(k: nat): (p: nat)
    ensures p >= 1
  {
    if k == 0 then 1 else 256 * Pow256(k - 1)
  }

  /** The k-byte big-endian encoding of n. */
  function EncodeBE(n: nat, k: nat): (r: Bytes)
    requires n < Pow256(k)
    ensures |r| == k
  {
    if k == 0 then []
    else
      DivBound(n, k);
      EncodeBE(n / 256, k - 1) + [n % 256]
  }

  /** The number a big-endian byte string denotes. */
  function DecodeBE(s: Bytes): (n: nat)
    ensures n < Pow256(|s|)
  {
    if s == [] then 0
    else
      var hi := DecodeBE(s[..|s| - 1]);
      MulBound(hi, s[|s| - 1], Pow256(|s| - 1));
      hi * 256 + s[|s| - 1]
  }

  lemma DivBound(n: nat, k: nat)
    requires k > 0 && n < Pow256(k)
    ensures n / 256 < Pow256(k - 1)
  {
  }

  lemma MulBound(hi: nat, lo: nat, p: nat)
    requires hi < p && lo < 256
    ensures hi * 256 + lo < 256 * p
  {
  }

  /** Decoding an encoding gives the number back. */
  lemma {:induction false} DecodeEncode(n: nat, k: nat)
    requires n < Pow256(k)
    ensures DecodeBE(EncodeBE(n, k)) == n
  {
    if k > 0 {
      DivBound(n, k);
      var e := EncodeBE(n, k);
      assert e[..k - 1] == EncodeBE(n / 256, k - 1);
      DecodeEncode(n / 256, k - 1);
    }
  }

  /** Encoding a decoded byte string gives the bytes back: the encoding
      is a bijection between k-byte strings and numbers below 256^k. */
  lemma {:induction false} EncodeDecode(s: Bytes)
    ensures EncodeBE(DecodeBE(s), |s|) == s
  {
    if s != [] {
      var init, last := s[..|s| - 1], s[|s| - 1];
      var n := DecodeBE(s);
      assert n / 256 == DecodeBE(init) && n % 256 == last;
      EncodeDecode(init);
      assert s == init + [last];
    }
  }
}

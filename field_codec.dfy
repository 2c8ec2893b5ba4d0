/**
 * Byte content folded into ledger field values and back (frontend/app/lib/crypto.ts):
 * big-endian folding of 31 bytes, the fixed-width 31-byte unfolding used for AES keys,
 * and the four places that fold (content hash, seed, content key, IPFS CID digest).
 */
module FieldCodec {
  import opened Wrappers
  import opened Bits
  import opened Decimal

  type Byte = b: int | 0 <= b < 256

  /** Width in bytes of every folded value: 31 bytes stay below the ledger's field modulus. */
  const FieldBytes := 31

  /** The big-endian value of `bs`, as `result = (result << 8n) + BigInt(byte)` computes it. */
  function BigEndian(bs: seq<Byte>): (r: nat)
    ensures r == 0 <==> forall i :: 0 <= i < |bs| ==> bs[i] == 0
  {
    if bs == [] then 0 else BigEndian(bs[..|bs| - 1]) * 256 + bs[|bs| - 1]
  }

  /** The low `len` bytes of `n`, most significant first, as `keyToUint8Array` fills them. */
  function ToBigEndian(n: nat, len: nat): (r: seq<Byte>)
    ensures |r| == len
  {
    if len == 0 then [] else ToBigEndian(n / 256, len - 1) + [n % 256]
  }

  /** The first `k` elements, or all of them when there are fewer: `Array.prototype.slice(0, k)`. */
  function Take<T>(s: seq<T>, k: nat): (r: seq<T>)
    ensures |r| == (if |s| < k then |s| else k) && r == s[..|r|]
  {
    if |s| <= k then s else s[..k]
  }

  /** Folding `len` bytes gives a value below 2^(8 * len); for 31 bytes, below 2^248. */
  lemma {:induction false} BigEndianBound(bs: seq<Byte>)
    ensures BigEndian(bs) < Pow2(8 * |bs|)
  {
    if bs != [] {
      var init := bs[..|bs| - 1];
      BigEndianBound(init);
      Pow2Byte(|init|);
    }
  }

  /** Unfolding then folding `len` bytes keeps exactly the low 8 * len bits. */
  lemma {:induction false} FoldUnfold(n: nat, len: nat)
    ensures BigEndian(ToBigEndian(n, len)) == n % Pow2(8 * len)
  {
    if len > 0 {
      var bs := ToBigEndian(n, len);
      assert bs[..len - 1] == ToBigEndian(n / 256, len - 1);
      FoldUnfold(n / 256, len - 1);
      Pow2Byte(len - 1);
      ModSplit(n, 256, Pow2(8 * (len - 1)));
    }
  }

  /** Folding then unfolding to the same width gives the bytes back. */
  lemma {:induction false} UnfoldFold(bs: seq<Byte>)
    ensures ToBigEndian(BigEndian(bs), |bs|) == bs
  {
    if bs != [] {
      var init := bs[..|bs| - 1];
      UnfoldFold(init);
      assert bs == init + [bs[|bs| - 1]];
    }
  }

  /** Unfolding to `len` bytes silently drops every bit above the low 8 * len. */
  lemma UnfoldDropsHighBits(n: nat, len: nat)
    ensures ToBigEndian(n, len) == ToBigEndian(n % Pow2(8 * len), len)
  {
    UnfoldFold(ToBigEndian(n, len));
    FoldUnfold(n, len);
  }

  /** The `for (const byte of bytes)` folding loop shared by hashContent, generateSeed and generate31ByteKey. */
  method FoldBigEndian(bytes: seq<Byte>) returns (result: nat)
    ensures result == BigEndian(bytes)
    ensures result < Pow2(8 * |bytes|)
  {
    result := 0;
    var i := 0;
    while i < |bytes|
      invariant 0 <= i <= |bytes|
      invariant result == BigEndian(bytes[..i])
    {
      assert bytes[..i + 1][..i] == bytes[..i];
      result := result * 256 + bytes[i];
      i := i + 1;
    }
    assert bytes[..i] == bytes;
    BigEndianBound(bytes);
  }

  /**
   * `hashContent`: `digest` is the SHA-256 digest of the UTF-8 encoded content, 32 bytes by
   * FIPS 180-4. Only its first 31 bytes are folded, and the value is sent as `<n>field`.
   */
  method HashContent(digest: seq<Byte>) returns (r: string)
    requires |digest| == 32
    ensures r == FieldLiteral(BigEndian(digest[..FieldBytes]))
    ensures ParseFieldLiteral(r) == Some(BigEndian(digest[..FieldBytes]))
    ensures BigEndian(digest[..FieldBytes]) < Pow2(248)
  {
    var hashArray := Take(digest, FieldBytes);
    var result := FoldBigEndian(hashArray);
    r := FieldLiteral(result);
  }

  /** `generateSeed`: `random` stands for the 31 bytes `crypto.getRandomValues` fills. */
  method GenerateSeed(random: seq<Byte>) returns (r: string)
    requires |random| == FieldBytes
    ensures r == NatToDecimal(BigEndian(random))
    ensures ParseBigInt(r) == Some(BigEndian(random))
    ensures BigEndian(random) < Pow2(248)
  {
    var result := FoldBigEndian(random);
    r := NatToDecimal(result);
    DecimalRoundTrip(result);
  }

  /**
   * `generate31ByteKey`: a fresh content key. Its decimal text turns back into exactly the
   * random bytes it was made from under `keyToUint8Array`.
   */
  method Generate31ByteKey(random: seq<Byte>) returns (r: string)
    requires |random| == FieldBytes
    ensures r == NatToDecimal(BigEndian(random))
    ensures ParseBigInt(r) == Some(BigEndian(random))
    ensures KeyBytes(r) == Some(random)
  {
    var result := FoldBigEndian(random);
    r := NatToDecimal(result);
    DecimalRoundTrip(result);
    KeyRoundTrip(random);
  }

  /**
   * The value `cidToAleoField` folds: the first 31 bytes of the CID's multihash digest, or 0
   * when the CID did not parse (`digest` is None) or its digest has fewer than 31 bytes.
   */
  function CidFieldValue(digest: Option<seq<Byte>>): (v: nat)
    ensures v < Pow2(248)
  {
    if digest.Some? && |digest.value| >= FieldBytes then
      BigEndianBound(digest.value[..FieldBytes]);
      BigEndian(digest.value[..FieldBytes])
    else 0
  }

  /**
   * `cidToAleoField`: `digest` is what `CID.parse(cidString).multihash.digest` gives, None
   * when parsing throws. Reading past the end of a short digest yields `undefined`, on which
   * `BigInt` throws; the catch turns both failures into "0field".
   */
  method CidToAleoField(digest: Option<seq<Byte>>) returns (r: string)
    ensures digest.None? || |digest.value| < FieldBytes ==> r == "0field"
    ensures digest.Some? && |digest.value| >= FieldBytes ==>
      ParseFieldLiteral(r) == Some(BigEndian(digest.value[..FieldBytes]))
    ensures r == FieldLiteral(CidFieldValue(digest))
  {
    if digest.None? {
      return "0field";
    }
    var d := digest.value;
    var result: nat := 0;
    var i := 0;
    while i < FieldBytes
      invariant 0 <= i <= FieldBytes && i <= |d|
      invariant result == BigEndian(d[..i])
    {
      if i >= |d| {
        return "0field";
      }
      assert d[..i + 1][..i] == d[..i];
      result := result * 256 + d[i];
      i := i + 1;
    }
    r := FieldLiteral(result);
  }

  /** What `keyToUint8Array(keyString)` returns, or None when `BigInt(keyString)` throws. */
  function KeyBytes(keyString: string): (r: Option<seq<Byte>>)
    ensures r.Some? <==> ParseBigInt(keyString).Some?
    ensures r.Some? ==> |r.value| == FieldBytes
  {
    match ParseBigInt(keyString)
    case None => None
    case Some(n) => Some(ToBigEndian(n, FieldBytes))
  }

  /** Every 31-byte key survives the trip through its decimal text. */
  lemma KeyRoundTrip(bs: seq<Byte>)
    requires |bs| == FieldBytes
    ensures KeyBytes(NatToDecimal(BigEndian(bs))) == Some(bs)
  {
    DecimalRoundTrip(BigEndian(bs));
    UnfoldFold(bs);
  }

  /**
   * `keyToUint8Array`: fills a fresh 31-byte array from the last index down, taking
   * `n & 0xff` and shifting `n` right by 8 each time, so only the low 248 bits survive.
   */
  method KeyToUint8Array(keyString: string) returns (r: Option<array<Byte>>)
    ensures r.None? <==> ParseBigInt(keyString).None?
    ensures r.Some? ==> fresh(r.value) && r.value.Length == FieldBytes
    ensures r.Some? ==> r.value[..] == ToBigEndian(ParseBigInt(keyString).value % Pow2(248), FieldBytes)
    ensures r.None? <==> KeyBytes(keyString).None?
    ensures r.Some? ==> KeyBytes(keyString) == Some(r.value[..])
  {
    var parsed := ParseBigInt(keyString);
    if parsed.None? {
      return None;
    }
    ghost var original := parsed.value;
    var n := parsed.value;
    var result := new Byte[FieldBytes];
    var i := FieldBytes - 1;
    while i >= 0
      invariant -1 <= i < FieldBytes
      invariant ToBigEndian(original, FieldBytes) == ToBigEndian(n, i + 1) + result[i + 1..]
    {
      result[i] := n % 256;
      n := n / 256;
      i := i - 1;
    }
    assert result[..] == result[0..];
    UnfoldDropsHighBits(original, FieldBytes);
    r := Some(result);
  }
}

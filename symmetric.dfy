/**
 * The byte layout around AES-GCM in `encryptWithAES` / `decryptWithAES`
 * (frontend/app/lib/crypto.ts): the key is zero-padded to 32 bytes and the blob is the
 * 12-byte IV followed by the cipher's output, as section 5.2.1.1 of NIST SP 800-38D
 * recommends for the IV length. The cipher itself is a pair of parameters.
 */
module Symmetric {
  import opened Wrappers
  import opened FieldCodec

  /** Length of the AES-256 key `importKey` receives. */
  const AesKeyBytes := 32
  /** Length of the random IV prefixed to every blob. */
  const IvBytes := 12

  datatype CryptoError =
    | KeyTooLong             // `paddedKey.set(keyBytes)` throws a RangeError
    | NotAnInteger           // `BigInt(keyString)` throws in `keyToUint8Array`
    | AuthenticationFailed   // `crypto.subtle.decrypt` rejects: the tag does not verify

  /** Authenticated encryption under (key, iv): AES-GCM's ciphertext with its tag appended. */
  type Seal = (seq<Byte>, seq<Byte>, seq<Byte>) -> seq<Byte>
  /** Authenticated decryption under (key, iv); None when the tag does not verify. */
  type Open = (seq<Byte>, seq<Byte>, seq<Byte>) -> Option<seq<Byte>>

  /**
   * `new Uint8Array(32)` followed by `set(keyBytes)`: the key bytes at the front, zeros after;
   * a key longer than 32 bytes does not fit and `set` throws.
   */
  function PadKey(keyBytes: seq<Byte>): (r: Result<seq<Byte>, CryptoError>)
    ensures r.Ok? <==> |keyBytes| <= AesKeyBytes
    ensures r.Ok? ==> |r.value| == AesKeyBytes && r.value[..|keyBytes|] == keyBytes
    ensures r.Ok? ==> forall i :: |keyBytes| <= i < AesKeyBytes ==> r.value[i] == 0
    ensures r.Err? ==> r.error == KeyTooLong
  {
    if |keyBytes| <= AesKeyBytes then Ok(keyBytes + seq(AesKeyBytes - |keyBytes|, _ => 0))
    else Err(KeyTooLong)
  }

  /** `data.slice(0, 12)` and `data.slice(12)`: a blob shorter than 12 bytes is all IV. */
  function SplitBlob(blob: seq<Byte>): (r: (seq<Byte>, seq<Byte>))
    ensures r.0 + r.1 == blob
    ensures |r.0| == if |blob| < IvBytes then |blob| else IvBytes
  {
    var cut := if |blob| < IvBytes then |blob| else IvBytes;
    (blob[..cut], blob[cut..])
  }

  /**
   * `encryptWithAES`: `plaintext` is the UTF-8 encoding of the data and `iv` the 12 bytes
   * `getRandomValues` draws for this call. The blob is the IV followed by the cipher output.
   */
  function EncryptWithAes(plaintext: seq<Byte>, keyBytes: seq<Byte>, iv: seq<Byte>, seal: Seal)
    : (r: Result<seq<Byte>, CryptoError>)
    requires |iv| == IvBytes
    ensures r.Ok? <==> |keyBytes| <= AesKeyBytes
    ensures r.Ok? ==> r.value == iv + seal(PadKey(keyBytes).value, iv, plaintext)
  {
    match PadKey(keyBytes)
    case Err(e) => Err(e)
    case Ok(key) => Ok(iv + seal(key, iv, plaintext))
  }

  /**
   * `decryptWithAES`: splits the blob at byte 12, rebuilds the key with `keyToUint8Array`
   * and the same zero padding, and opens the rest under that IV.
   */
  function DecryptWithAes(blob: seq<Byte>, keyString: string, open: Open)
    : (r: Result<seq<Byte>, CryptoError>)
    ensures KeyBytes(keyString).None? ==> r == Err(NotAnInteger)
    ensures KeyBytes(keyString).Some? ==>
      var unsealed := open(PadKey(KeyBytes(keyString).value).value, SplitBlob(blob).0, SplitBlob(blob).1);
      (unsealed.None? ==> r == Err(AuthenticationFailed)) && (unsealed.Some? ==> r == Ok(unsealed.value))
  {
    var (iv, ciphertext) := SplitBlob(blob);
    match KeyBytes(keyString)
    case None => Err(NotAnInteger)
    case Some(keyBytes) =>
      match PadKey(keyBytes)
      case Err(e) => Err(e)
      case Ok(key) =>
        match open(key, iv, ciphertext)
        case None => Err(AuthenticationFailed)
        case Some(plaintext) => Ok(plaintext)
  }

  /** Splitting a written blob gives back exactly the IV written and the cipher output. */
  lemma SplitRecoversLayout(iv: seq<Byte>, ciphertext: seq<Byte>)
    requires |iv| == IvBytes
    ensures SplitBlob(iv + ciphertext) == (iv, ciphertext)
  {
    var blob := iv + ciphertext;
    assert blob[..IvBytes] == iv && blob[IvBytes..] == ciphertext;
  }

  /**
   * The key `decryptWithAES` rebuilds from `keyString` is the one `encryptWithAES` used when it
   * was given `keyToUint8Array(keyString)`: the 31 key bytes then a single zero byte.
   */
  lemma PaddedKeysAgree(keyString: string)
    requires KeyBytes(keyString).Some?
    ensures PadKey(KeyBytes(keyString).value).Ok?
    ensures var key := PadKey(KeyBytes(keyString).value).value;
      key[..FieldBytes] == KeyBytes(keyString).value && key[FieldBytes] == 0
  {
  }

  /**
   * Round trip: encrypting under `keyToUint8Array(keyString)` and decrypting the blob with
   * `keyString` gives the plaintext back, for any cipher whose opening undoes its sealing.
   */
  lemma AesRoundTrip(plaintext: seq<Byte>, keyString: string, iv: seq<Byte>, seal: Seal, open: Open)
    requires KeyBytes(keyString).Some? && |iv| == IvBytes
    requires forall k, v, p :: open(k, v, seal(k, v, p)) == Some(p)
    ensures EncryptWithAes(plaintext, KeyBytes(keyString).value, iv, seal).Ok?
    ensures DecryptWithAes(EncryptWithAes(plaintext, KeyBytes(keyString).value, iv, seal).value,
                           keyString, open) == Ok(plaintext)
  {
    var key := PadKey(KeyBytes(keyString).value).value;
    SplitRecoversLayout(iv, seal(key, iv, plaintext));
  }
}

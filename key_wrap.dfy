/**
 * Wrapping the report's content key for one recipient (`encryptKeyForAddress` in
 * frontend/app/lib/crypto.ts): the key is XORed with an ECDH shared secret and masked to
 * 250 bits so that it stays below the ledger's field modulus.
 */
module KeyWrap {
  import opened Wrappers
  import opened Bits
  import opened Decimal
  import opened FieldCodec

  /** Width of the mask `(1n << 250n) - 1n`. */
  const MaskBits := 250

  datatype WrapError =
    | ClientOnly                  // called where `window` is undefined
    | SdkError                    // the SDK import or an SDK call threw (a malformed address, say)
    | NotAnInteger(text: string)  // the SyntaxError `BigInt(text)` throws

  /**
   * What `encryptKeyForAddress` returns: the wrapped key's decimal text and the field form of
   * the ephemeral account's address, which the recipient needs to rebuild the secret.
   */
  datatype WrappedKey = WrappedKey(encryptedKey: string, ephemeralPublicKey: string)

  /** `(keyBI ^ secretBI) & mask`; the secret may be wider than 250 bits. */
  function WrapKey(key: nat, secret: nat): (r: nat)
    ensures r < Pow2(MaskBits)
  {
    And(Xor(key, secret), Mask(MaskBits))
  }

  /** The wrapped key is the low 250 bits of `key XOR secret`, so it is below 2^250. */
  lemma WrapKeyIsLowBits(key: nat, secret: nat)
    ensures WrapKey(key, secret) == Xor(key, secret) % Pow2(MaskBits)
    ensures WrapKey(key, secret) < Pow2(MaskBits)
  {
    AndMask(Xor(key, secret), MaskBits);
  }

  /**
   * Applying the same masked XOR with the same secret gives back the low 250 bits of the key;
   * a key below 2^250 comes back unchanged, a wider one silently loses its high bits.
   */
  lemma UnwrapRecoversKey(key: nat, secret: nat)
    ensures WrapKey(WrapKey(key, secret), secret) == key % Pow2(MaskBits)
    ensures key < Pow2(MaskBits) ==> WrapKey(WrapKey(key, secret), secret) == key
  {
    MaskedXorTwice(key, secret, MaskBits);
    if key < Pow2(MaskBits) {
      ModOfSmall(key, Pow2(MaskBits));
    }
  }

  /** `sharedSecret.toString().replace(/group$/, '')`: drops a trailing "group" only. */
  function StripGroupSuffix(s: string): (r: string)
    ensures r + (if |r| < |s| then "group" else "") == s
    ensures |s| >= 5 && s[|s| - 5..] == "group" ==> r == s[..|s| - 5]
  {
    if |s| >= 5 && s[|s| - 5..] == "group" then s[..|s| - 5] else s
  }

  /**
   * `encryptKeyForAddress`. `sharedSecretText` is the text of the group element the SDK
   * computes from a fresh ephemeral account's scalar and the recipient's address, None when
   * the SDK import, `Address.from_string` (a malformed recipient address) or the group
   * arithmetic throws. `ephemeralField` is what `addressToField` gives for that account's
   * address, None when it throws. Both are made anew on every call, so each call returns a
   * different ephemeral key.
   */
  function EncryptKeyForAddress(inBrowser: bool, caseKeyField: string, sharedSecretText: Option<string>,
                                ephemeralField: Option<string>): (r: Result<WrappedKey, WrapError>)
    ensures r.Ok? <==> inBrowser && sharedSecretText.Some? && ParseBigInt(caseKeyField).Some?
                       && ParseBigInt(StripGroupSuffix(sharedSecretText.value)).Some?
                       && ephemeralField.Some?
    ensures !inBrowser ==> r == Err(ClientOnly)
    ensures inBrowser && sharedSecretText.None? ==> r == Err(SdkError)
    ensures inBrowser && sharedSecretText.Some? && ParseBigInt(caseKeyField).None? ==>
      r == Err(NotAnInteger(caseKeyField))
    ensures r.Ok? ==> r.value.ephemeralPublicKey == ephemeralField.value
    ensures r.Ok? ==>
      var key := ParseBigInt(caseKeyField).value;
      var secret := ParseBigInt(StripGroupSuffix(sharedSecretText.value)).value;
      r.value.encryptedKey == NatToDecimal(Xor(key, secret) % Pow2(MaskBits))
      && ParseBigInt(r.value.encryptedKey) == Some(Xor(key, secret) % Pow2(MaskBits))
  {
    if !inBrowser then Err(ClientOnly)
    else if sharedSecretText.None? then Err(SdkError)
    else
      var secretText := StripGroupSuffix(sharedSecretText.value);
      match (ParseBigInt(caseKeyField), ParseBigInt(secretText))
      case (None, _) => Err(NotAnInteger(caseKeyField))
      case (_, None) => Err(NotAnInteger(secretText))
      case (Some(key), Some(secret)) =>
        if ephemeralField.None? then Err(SdkError)
        else
          WrapKeyIsLowBits(key, secret);
          DecimalRoundTrip(WrapKey(key, secret));
          Ok(WrappedKey(NatToDecimal(WrapKey(key, secret)), ephemeralField.value))
  }

  /**
   * A recipient who derives the same secret and applies the same masked XOR to the published
   * wrapped key recovers the content key, provided the key is below 2^250 (every key made by
   * `generate31ByteKey` is below 2^248).
   */
  lemma RecipientRecoversKey(caseKeyField: string, sharedSecretText: string, ephemeralField: string)
    requires ParseBigInt(caseKeyField).Some? && ParseBigInt(StripGroupSuffix(sharedSecretText)).Some?
    ensures EncryptKeyForAddress(true, caseKeyField, Some(sharedSecretText), Some(ephemeralField)).Ok?
    ensures
      var w := EncryptKeyForAddress(true, caseKeyField, Some(sharedSecretText), Some(ephemeralField)).value;
      var key := ParseBigInt(caseKeyField).value;
      var secret := ParseBigInt(StripGroupSuffix(sharedSecretText)).value;
      ParseBigInt(w.encryptedKey).Some?
      && WrapKey(ParseBigInt(w.encryptedKey).value, secret) == key % Pow2(MaskBits)
  {
    var key := ParseBigInt(caseKeyField).value;
    var secret := ParseBigInt(StripGroupSuffix(sharedSecretText)).value;
    WrapKeyIsLowBits(key, secret);
    UnwrapRecoversKey(key, secret);
  }

  /**
   * A content key made by `generate31ByteKey` from any 31 random bytes is below 2^248, so the
   * recipient gets the very same key back whatever the shared secret is.
   */
  lemma GeneratedKeySurvivesWrapping(random: seq<Byte>, secret: nat)
    requires |random| == FieldBytes
    ensures WrapKey(WrapKey(BigEndian(random), secret), secret) == BigEndian(random)
  {
    BigEndianBound(random);
    Pow2Add(248, 2);
    UnwrapRecoversKey(BigEndian(random), secret);
  }
}

# AleoWhistle client core in Dafny

A model of the client-side core of the AleoWhistle whistleblowing frontend, the code that
turns report material into the values an Aleo program stores and follows a write to the
ledger until it is final:

- **Field codec** (`frontend/app/lib/crypto.ts`): 31 bytes folded big-endian into a field
  value (`hashContent`, `generateSeed`, `generate31ByteKey`, `cidToAleoField`) and unfolded
  back into a fixed 31-byte key (`keyToUint8Array`), with the decimal text of BigInt values
  and the ledger's `<n>field` literals. Module `FieldCodec`, on top of `Decimal` and `Bits`.
- **Key wrapping** (`encryptKeyForAddress`): the content key XORed with an ECDH shared secret
  and masked to 250 bits. Module `KeyWrap`.
- **AES blob layout** (`encryptWithAES`, `decryptWithAES`): the key zero-padded to 32 bytes,
  the blob as the 12-byte IV followed by the AES-GCM output, the IV length section 5.2.1.1 of
  NIST SP 800-38D recommends. Module `Symmetric`.
- **Receipt parsing** (`parseReportIdFromReceipt`): a total parser over the JSON receipt and the
  pattern `arguments:\s*\[\s*(\d+)field`. Module `Receipt`.
- **Confirmation tracker** (`pollTransaction` in `frontend/app/hooks/useWhistleblowing.ts`):
  the per-tick transition rule and the polling loop over a sequence of observed answers.
  Module `Tracker`.
- **Ledger writes** (`submitReport`, `updateStatus`, `addComment`): the request objects, the
  provisional id, and the confirmation that follows. Module `Dispatch`.

BigInt values are `nat`, byte arrays `seq<Byte>` (an `array<Byte>` where the source fills one
in place), thrown errors `Result`/`Option` values. SHA-256 (FIPS 180-4), AES-GCM, random bytes,
`CID.parse`, the Aleo SDK's accounts and group arithmetic, and the wallet's
`executeTransaction` / `transactionStatus` are parameters: the model receives what they return.

Points where the code behaves in ways a reader might not expect, and which the model keeps:

- `encryptKeyForAddress` makes a fresh ephemeral account on every call, so each call
  returns a different ephemeral key, while `submit_report` carries a single `ephemeral_key`
  input.
- `pollTransaction` has no timeout and no cancellation: `Tracker.NoTimeout` shows a handle that
  never turns terminal is polled for as long as it runs.
- Only "Failed" and "Aborted" reject; every other status keeps the tracker polling.
- `keyToUint8Array` always produces exactly 31 bytes, and its input keeps only its low 248 bits.
- "0field", the value `cidToAleoField` returns when a CID does not parse or its digest is
  shorter than 31 bytes, is also the value of a digest whose first 31 bytes are all zero
  (`FieldCodec.BigEndian` is 0 exactly on all-zero bytes).

## Model

| member | source | states |
|---|---|---|
| `Decimal.NatToDecimal` | frontend/app/lib/crypto.ts:25 | `toString()` of a BigInt is a non-empty run of decimal digits with no leading zero unless the value is 0 |
| `Decimal.ParseBigInt` | frontend/app/lib/crypto.ts:102 | `BigInt(text)` succeeds exactly on strings of decimal digits (the empty string giving 0) |
| `Decimal.IntToDecimal` | frontend/app/hooks/useWhistleblowing.ts:77 | `newStatus.toString()` of an integer is a canonical numeral: non-empty, "-" first exactly for negative codes, no leading zero except "0", and its digits read back as the code's magnitude |
| `Decimal.DecimalRoundTrip` | frontend/app/lib/crypto.ts:45 | `BigInt(n.toString())` gives back `n` for every non-negative value |
| `Decimal.FieldLiteral` | frontend/app/lib/crypto.ts:15 | the `${result}field` literal reads back as `result` |
| `FieldCodec.BigEndian` | frontend/app/lib/crypto.ts:11-14 | the big-endian value of the bytes is 0 exactly when every byte is 0 |
| `FieldCodec.ToBigEndian` | frontend/app/lib/crypto.ts:104-107 | unfolding to `len` bytes gives exactly `len` bytes |
| `FieldCodec.BigEndianBound` | frontend/app/lib/crypto.ts:11-14 | folding `len` bytes big-endian gives a value below 2^(8·len); 31 bytes give a value below 2^248 |
| `FieldCodec.FoldUnfold` | frontend/app/lib/crypto.ts:101-109 | folding the `len` bytes that `keyToUint8Array` writes gives `n mod 2^(8·len)` |
| `FieldCodec.UnfoldFold` | frontend/app/lib/crypto.ts:93-98 | unfolding a folded byte string to its own width gives the same bytes back |
| `FieldCodec.UnfoldDropsHighBits` | frontend/app/lib/crypto.ts:104-107 | unfolding ignores every bit above the low 8·len: values at or above 2^248 lose their high bits and nothing is raised |
| `FieldCodec.Take` | frontend/app/lib/crypto.ts:10 | `slice(0, k)` keeps the first `min(k, length)` elements, in order |
| `FieldCodec.FoldBigEndian` | frontend/app/lib/crypto.ts:21-24 | the `result = (result << 8n) + byte` loop computes the big-endian value of all the bytes, below 2^(8·len) |
| `FieldCodec.HashContent` | frontend/app/lib/crypto.ts:6-16 | the result is the `<n>field` literal of the first 31 of the 32 SHA-256 bytes folded big-endian, and reads back as that value, below 2^248 |
| `FieldCodec.GenerateSeed` | frontend/app/lib/crypto.ts:19-26 | the seed text is the canonical decimal numeral of the 31 random bytes folded big-endian, a value below 2^248 |
| `FieldCodec.Generate31ByteKey` | frontend/app/lib/crypto.ts:90-99 | the key text is the canonical decimal numeral of the 31 random bytes folded big-endian, and `keyToUint8Array` turns it back into exactly those bytes |
| `FieldCodec.CidFieldValue` | frontend/app/lib/crypto.ts:76-88 | the value a CID is folded to is below 2^248 |
| `FieldCodec.CidToAleoField` | frontend/app/lib/crypto.ts:76-88 | "0field" when the CID does not parse or its digest is shorter than 31 bytes; otherwise the literal of the first 31 digest bytes folded big-endian |
| `FieldCodec.KeyBytes` | frontend/app/lib/crypto.ts:101-109 | `keyToUint8Array` fails exactly when `BigInt` does, and otherwise gives 31 bytes |
| `FieldCodec.KeyRoundTrip` | frontend/app/lib/crypto.ts:93-109 | for every 31 bytes `b`, `keyToUint8Array(fold(b).toString()) == b` |
| `FieldCodec.KeyToUint8Array` | frontend/app/lib/crypto.ts:101-109 | fills a fresh 31-byte array with the low 248 bits of the key, most significant byte first, holding exactly the bytes `KeyBytes` specifies; fails exactly when `BigInt` throws |
| `Bits.Mask` | frontend/app/lib/crypto.ts:53 | `(1n << n) - 1n` is below 2^n and has all of its `n` low bits set |
| `Bits.Xor` | frontend/app/lib/crypto.ts:54 | BigInt `a ^ b` is at most `a + b`, is `a` when `b` is 0, and is 0 when `a == b` |
| `Bits.And` | frontend/app/lib/crypto.ts:54 | BigInt `a & b` is at most each operand |
| `Bits.XorSelfInverse` | frontend/app/lib/crypto.ts:54 | BigInt XOR with the same value twice is the identity |
| `Bits.XorMod` | frontend/app/lib/crypto.ts:54 | the low `n` bits of a XOR depend only on the low `n` bits of the operands |
| `Bits.XorBelow` | frontend/app/lib/crypto.ts:54 | the XOR of two `n`-bit values is an `n`-bit value |
| `Bits.AndMask` | frontend/app/lib/crypto.ts:53-54 | AND with `(1n << n) - 1n` is reduction modulo 2^n |
| `Bits.MaskedXorTwice` | frontend/app/lib/crypto.ts:53-54 | the masked XOR applied twice with the same value keeps the low `n` bits of the start value |
| `KeyWrap.WrapKey` | frontend/app/lib/crypto.ts:53-54 | `(keyBI ^ secretBI) & mask` is below 2^250 |
| `KeyWrap.WrapKeyIsLowBits` | frontend/app/lib/crypto.ts:53-54 | the wrapped key is `(key XOR secret) mod 2^250`, so it is below 2^250, for secrets of any width |
| `KeyWrap.UnwrapRecoversKey` | frontend/app/lib/crypto.ts:53-54 | applying the same masked XOR again with the same secret gives `key mod 2^250`, hence `key` itself whenever `key < 2^250` |
| `KeyWrap.StripGroupSuffix` | frontend/app/lib/crypto.ts:46 | `replace(/group$/, '')` removes a trailing "group" when there is one and otherwise returns the text unchanged |
| `KeyWrap.EncryptKeyForAddress` | frontend/app/lib/crypto.ts:28-64 | fails off the client, when an SDK step throws (import, malformed recipient address, `addressToField`) and when a BigInt parse throws, and succeeds otherwise; the wrapped key is the canonical numeral of `(key XOR secret) mod 2^250` and the ephemeral field is passed through |
| `KeyWrap.RecipientRecoversKey` | frontend/app/lib/crypto.ts:43-54 | a recipient holding the same secret recovers the key's low 250 bits from the published wrapped key |
| `KeyWrap.GeneratedKeySurvivesWrapping` | frontend/app/lib/crypto.ts:93-98 | a key made from 31 random bytes is recovered exactly, whatever the secret |
| `Symmetric.PadKey` | frontend/app/lib/crypto.ts:114-115 | the padded key has 32 bytes, starts with the key bytes and is zero after them; keys over 32 bytes throw |
| `Symmetric.SplitBlob` | frontend/app/lib/crypto.ts:136-137 | the IV part and the rest concatenate to the blob, and the IV part is 12 bytes unless the blob is shorter |
| `Symmetric.EncryptWithAes` | frontend/app/lib/crypto.ts:111-130 | the blob is the 12-byte IV followed by the cipher output under the padded key; fails only for keys over 32 bytes |
| `Symmetric.DecryptWithAes` | frontend/app/lib/crypto.ts:132-154 | fails when the key text is not an integer or the tag does not verify, and never returns data in those cases; otherwise returns what the cipher opens |
| `Symmetric.SplitRecoversLayout` | frontend/app/lib/crypto.ts:129-137 | splitting a written blob at byte 12 gives exactly the IV written and the cipher output |
| `Symmetric.PaddedKeysAgree` | frontend/app/lib/crypto.ts:139-141 | decryption pads `keyToUint8Array(keyString)` to 31 key bytes followed by one zero byte, the key encryption used when given those bytes |
| `Symmetric.AesRoundTrip` | frontend/app/lib/crypto.ts:111-154 | encrypting under `keyToUint8Array(keyString)` then decrypting with `keyString` returns the plaintext, for any cipher whose opening undoes its sealing |
| `Receipt.Member` | frontend/app/lib/crypto.ts:174 | `v?.key` is defined exactly when `v` is an object holding `key` |
| `Receipt.Truthy` | frontend/app/lib/crypto.ts:174-185 | a truthy value is present and not null, and every array or object is truthy (so an empty `transitions` list is kept) |
| `Receipt.Matches` | frontend/app/lib/crypto.ts:177-183 | the `find` tests `t.function === "submit_report"` and `o.type === "future"` hold exactly when the element is not null and its property is that very string |
| `Receipt.FindFirst` | frontend/app/lib/crypto.ts:177 | `find` returns the first matching element; it throws only on a null element met before any match; "not found" means no element matches |
| `Receipt.FindFirstUnique` | frontend/app/lib/crypto.ts:183 | `find` returns the first match whenever no null element comes before it |
| `Receipt.IsRegexSpace` | frontend/app/lib/crypto.ts:187 | the regex class `\s` takes in space, tab, line feed and carriage return, and never a digit, `[` or `:` |
| `Receipt.SkipSpaces` | frontend/app/lib/crypto.ts:187 | ends the longest run of `\s` characters |
| `Receipt.SkipDigits` | frontend/app/lib/crypto.ts:187 | ends the longest run of `\d` characters |
| `Receipt.MatchAt` | frontend/app/lib/crypto.ts:187 | a capture is a non-empty run of decimal digits |
| `Receipt.MatchAtSound` | frontend/app/lib/crypto.ts:187 | every capture comes from a genuine match of `arguments:\s*\[\s*(\d+)field` at that position |
| `Receipt.MatchAtComplete` | frontend/app/lib/crypto.ts:187 | every match of the pattern at a position is found, with its digit run as the capture |
| `Receipt.LeftmostMatch` | frontend/app/lib/crypto.ts:187 | `match` settles on a matching position with no match before it, and finds none only when no position matches |
| `Receipt.FirstMatch` | frontend/app/lib/crypto.ts:187-189 | `match?.[1]` is a non-empty run of decimal digits when there is one |
| `Receipt.FutureValue` | frontend/app/lib/crypto.ts:174-185 | the value matched against is a non-empty string; `Receipt.FutureValueOnPath` states where it comes from |
| `Receipt.ParseReportIdFromReceipt` | frontend/app/lib/crypto.ts:172-200 | the result is "" or a run of decimal digits; "" when no value is read or the pattern does not occur in it; otherwise exactly the capture of the leftmost match |
| `Receipt.LeftmostMatchCaptured` | frontend/app/lib/crypto.ts:187-191 | `match?.[1]` is the digit run of the leftmost occurrence of the pattern |
| `Receipt.FutureValueFound` | frontend/app/lib/crypto.ts:174-185 | the first "future" output of the first "submit_report" transition is the value read |
| `Receipt.FutureValueOnPath` | frontend/app/lib/crypto.ts:174-185 | a value is read only along that path: the first "submit_report" transition with no null before it, its first "future" output with no null before it, and a non-empty string `value`; any missing or ill-typed piece gives "" |
| `Receipt.ReportIdFound` | frontend/app/lib/crypto.ts:172-192 | a receipt whose first "submit_report" transition has a "future" output whose value contains the pattern yields the digits of the leftmost match |
| `Receipt.NoReportTransitionGivesEmpty` | frontend/app/lib/crypto.ts:174-181 | a receipt with no transitions, or none for "submit_report", yields "" without throwing |
| `Tracker.AcceptedWithId` | frontend/app/hooks/useWhistleblowing.ts:15 | `status.status === "Accepted" && status.transactionId` holds only for a status carrying a non-empty id |
| `Tracker.Step` | frontend/app/hooks/useWhistleblowing.ts:12-25 | no status decides nothing; "Accepted" with a non-empty id resolves with that id; "Failed" or "Aborted" rejects with `"Transaction " + status`; a thrown query rejects with that error |
| `Tracker.StepPendingCases` | frontend/app/hooks/useWhistleblowing.ts:13-21 | a tick keeps polling exactly for a missing status, a status other than Failed and Aborted, or Accepted without a transaction id |
| `Tracker.Track` | frontend/app/hooks/useWhistleblowing.ts:10-26 | polling stops at the first terminal answer, which decides the outcome, after exactly as many queries as answers read; pending means every answer was non-terminal |
| `Tracker.NoQueriesAfterTerminal` | frontend/app/hooks/useWhistleblowing.ts:16-24 | answers after a terminal one change neither the outcome nor the query count |
| `Tracker.DecidedAfterPending` | frontend/app/hooks/useWhistleblowing.ts:10-26 | `k` answers that decide nothing followed by a deciding answer `x` settle with `x`'s outcome after exactly `k + 1` queries, whatever comes after |
| `Tracker.NoTimeout` | frontend/app/hooks/useWhistleblowing.ts:10-26 | any number of answers without a status leaves the tracker pending after that many queries |
| `Tracker.AcceptedAfterTwoPending` | frontend/app/hooks/useWhistleblowing.ts:15-17 | a pending status, no status, then Accepted with "tx_42" resolves with "tx_42" after three queries |
| `Tracker.PollTransaction` | frontend/app/hooks/useWhistleblowing.ts:8-28 | the polling loop ends with the outcome and query count `Track` specifies |
| `Dispatch.SubmitRequest` | frontend/app/hooks/useWhistleblowing.ts:45-61 | `submit_report` of new_whistleblowing_version1.aleo with fee 1500000, public fee, nine inputs, category and severity as canonical numerals followed by "u8", the CID field in slots 5 and 6 |
| `Dispatch.SubmitInputsRoundTrip` | frontend/app/hooks/useWhistleblowing.ts:48-58 | the inputs are, in order, seed+"field", category+"u8", severity+"u8", content hash, CID field twice, admin key+"field", reviewer key+"field", ephemeral key: each value is recovered from its slot by a reader that accepts only canonical `u8` numerals |
| `Dispatch.StatusRequest` | frontend/app/hooks/useWhistleblowing.ts:74-80 | `update_status` with fee 50000, public fee, the report id and `newStatus.toString()`, which reads back as the code when it is not negative |
| `Dispatch.CommentRequest` | frontend/app/hooks/useWhistleblowing.ts:95-101 | `add_comment` with fee 50000, public fee, the report id and the encrypted note |
| `Dispatch.TemporaryId` | frontend/app/hooks/useWhistleblowing.ts:63 | the id is the string the wallet returned, or the object's `transactionId`; it is missing only when nothing or an object without one came back |
| `Dispatch.HasHandle` | frontend/app/hooks/useWhistleblowing.ts:82-83 | `if (!temporaryId)` lets through only a present, non-empty id |
| `Dispatch.SubmitReport` | frontend/app/hooks/useWhistleblowing.ts:30-70 | sends the request built from the CID's field value, rethrows a dispatch failure, and polls whatever id came back without checking it |
| `Dispatch.ConfirmWithHandle` | frontend/app/hooks/useWhistleblowing.ts:82-85 | rejects with "No transaction ID" before any query when the id is missing or empty, otherwise polls |
| `Dispatch.UpdateStatus` | frontend/app/hooks/useWhistleblowing.ts:72-91 | sends the status request, then rejects with "No transaction ID" or polls as `Track` specifies |
| `Dispatch.AddComment` | frontend/app/hooks/useWhistleblowing.ts:93-112 | sends the comment request, then rejects with "No transaction ID" or polls as `Track` specifies |

## Left out

- SHA-256, AES-GCM, `crypto.getRandomValues`, `CID.parse`, and the Aleo SDK (`Account`, `Address.from_string`, `toGroup`, `scalarMultiply`, `to_scalar`, `toFields`): foreign library calls, taken as parameters (an `Option` where the source lets their throw reach the caller). The reciprocity of the ECDH secret needs the curve and is not proved; neither is the tag check of AES-GCM.
- `TextEncoder` and `TextDecoder`: UTF-8 is not modelled; `encryptWithAES` takes the encoded bytes, `decryptWithAES` returns the opened bytes, and `hashContent` takes the SHA-256 digest of the encoded content.
- `Decimal.ParseBigInt`: only strings of decimal digits are read; the whitespace, sign and `0x`/`0o`/`0b` prefixes that `BigInt` also accepts are treated as the SyntaxError it throws otherwise, so negative keys are not modelled.
- `Decimal.IntToDecimal`: JavaScript's `Number.prototype.toString` is modelled on integers only, printed in full; a number of magnitude 10^21 or more (printed by JavaScript in exponent form, "1e+21"), a fraction ("1.5") and NaN are not represented. The callers pass the status codes 3 and 4.
- `Dispatch.StatusRequest`: `newStatus` is taken as an integer, so its text is that of `Decimal.IntToDecimal`, with the same limits on magnitude, fractions and NaN.
- `Dispatch.SubmitInputsRoundTrip`: `category` and `severity` are taken as non-negative integers printed in full by `${}`; a negative, fractional or NaN value, or one of magnitude 10^21 or more, is not represented. The callers pass 1 and 2.
- `addressToField` (frontend/app/lib/crypto.ts:66-73): a thin SDK wrapper; its output, or None when it throws, is the `ephemeralField` parameter of `KeyWrap.EncryptKeyForAddress`.
- `getBlockchainReceipt`, `frontend/app/hooks/useIPFS.ts` and `frontend/app/api/ipfs/route.ts`: HTTP and network I/O.
- Timers, promises and `async` scheduling in `pollTransaction`: the 3000 ms interval is not modelled, each observation standing for one tick; callbacks that overlap when a status query takes longer than the interval are not modelled.
- `deriveReportId`: an unused stub that returns the seed.
- `frontend/app/submit/page.tsx`, `page.tsx`, `dashboard/page.tsx`, `layout.tsx` and the components: React rendering and state glue; the submit page calls functions that do not exist.
- `Receipt.Json`: numbers are exact reals, since JSON has neither NaN nor `undefined`; prototype properties of objects are not modelled.
- `console.log` and `console.error` output.

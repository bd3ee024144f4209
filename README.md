# XRP payment transaction core

A Dafny model of the payment-transaction core of the Ripple (XRP Ledger)
support in breadwallet-core, `ripple/BRRippleTransaction.c`:

- **Transaction record and lifecycle.** `RippleTransaction.Transaction` is a
  class whose fields are the record's fields (the payment sub-record is an
  embedded value). `Create` builds a native-currency payment and `Zeroed` the
  zero-filled record of `createTransactionObject`. `Free` and
  `ReleaseArtifact` release the artifact and the memo list. `State()` gives the
  record's value (`RippleTypes.TxState`), which the specification functions
  work on. The plain accessors (`GetFee`, `GetSequence`, `GetTarget`, …) are
  reads of one field. `GetFee` and `GetAmount` read the native drop count
  (`u64Amount`) of the Amount union. `GetHash` and `GetAmountRaw` select by
  case.
- **Encode-direction field mapper.** `Transaction.SetFieldInfo` writes the
  tagged fields into the caller's 10-slot array through an index counter. It is
  proved equal to `FieldEncode.EncodeFields`, and the order, count,
  optionality and signed/unsigned relation are lemmas about that function.
- **Decode-direction field mapper.** `Transaction.GetFieldInfo` loops over
  the fields and dispatches each one into the record (`ApplyField`). It is
  proved equal to the fold `FieldDecode.DecodeAll` of `FieldDecode.Dispatch`.
  `Dispatch` is checked against an independent tag table (`DecodeTable`, `Get`,
  `Read`): only the named slot is written, and unknown tags are ignored.
  `CreateFromBytes` then moves the memo list of the last (15, 9) field into
  the record.
- **Sign-and-seal coordinator.** `Transaction.Serialize` runs the probe, the
  allocation of probe + 512 bytes and the write. `Transaction.SerializeAndSign`
  runs the two passes and `CreateTransactionHash` computes the hash. They are
  proved against `Sealing.SerializeFields` and `Sealing.Seal`. The hash is the
  first 32 bytes of SHA-512 over `"TXN\0"` followed by the signed bytes.

The byte encoder and decoder (`rippleSerialize`, `rippleDeserialize`),
`signBytes` and `BRSHA512` are function values held in
`External.Collaborators`. Their only assumed contract (`Valid`) is that the
encoder writes no more than the capacity it is given and that the digest is 64
bytes long. The round-trip lemmas also assume `FieldDecode.DecoderInvertsEncoder`:
the decoder returns the encoded fields, with drop counts in Amount fields
coming back as XRP Amount objects.

### Source defects stated in the model

- Re-signing frees only the old artifact's struct, not its buffer
  (`ripple/BRRippleTransaction.c:283`; compare the full release at :107-115).
  `SerializeAndSign` appends that buffer to the ghost log `Leaked`. `Free` and
  `ReleaseArtifact` add nothing to it.
- The unsigned serialization and the signature record of every signing pass
  are never released (:295-301). `SerializeAndSign` records both in `Leaked`.
- The unsigned serialization is dereferenced without a null check (:298). In
  the model, a failed unsigned pass ends the call: it returns no artifact, and
  the record has the stamped fields but no artifact.
- The memo hand-over of `rippleTransactionCreateFromBytes` (:529-534)
  assigns the record's memo list once per (15, 9) field. When the decoder
  returns more than one such field, every list but the last is overwritten and
  never released. `CreateFromBytes` records each of them in `Leaked`
  (`FieldDecode.MemosDropped`).
- The Amount arm of the decode switch has no `break` (:495-496), so it falls
  through into the Blob arm. The model decodes with the intended per-type-code
  match. The as-written dispatch is kept beside it, with a counterexample (see
  Findings).

### Behaviour kept as the code has it

- `rippleTransactionCreateFromBytes` never reports failure. It returns a
  zero-filled record filled from whatever fields the decoder produced, which is
  none for malformed bytes.
- A failed re-sign leaves the record without an artifact, because the old
  artifact is dropped before encoding starts.
- A signer failure is not detected. The signature record returned by
  `signBytes` is used unchecked: `sig->signature` and `sig->sig_length` are
  read at `ripple/BRRippleTransaction.c:301` with no null or length check, so
  whatever signature comes back is sealed into the artifact. The model follows
  the code: `signBytes` is a total function in `External.Collaborators`, and
  its result always goes into the second pass. A failed signer therefore does
  not leave the record without an artifact, as one might otherwise expect.
- RIPPLE_TX_TYPE_PAYMENT is taken as 0. The zero-filled record and the wire
  code both rely on that, and `mapTransactionType` maps 0 to payment.

## Model

| member | source | states |
|---|---|---|
| RippleTypes.MapTransactionType | ripple/BRRippleTransaction.c:448-454 | the result is payment if and only if the wire code is 0; every other code gives unknown |
| RippleTypes.TxTypeCodeRoundTrip | ripple/BRRippleTransaction.c:448-454 | mapping back the wire code that the encoder writes for a type (the `i16` write at ripple/BRRippleTransaction.c:177) gives that type again |
| RippleTypes.HashOf | ripple/BRRippleTransaction.c:323-334 | a record's hash is all zero bytes when it has no artifact, and the artifact's hash otherwise |
| RippleTransaction.Transaction.Zeroed | ripple/BRRippleTransaction.c:117-122 | a newly allocated record is zero-filled |
| RippleTransaction.Transaction.Create | ripple/BRRippleTransaction.c:124-148 | a new record is a payment with XRP fee and amount of the given drops, flags 0x80000000, last ledger sequence 0, no artifact and a zero hash |
| RippleTransaction.FreshRecordEncoding | ripple/BRRippleTransaction.c:124-219 | a fresh record has a zero hash and encodes to exactly the eight prefix fields: fee and amount as drop counts, flags as the canonical-signature bit |
| RippleTransaction.Transaction.ReleaseArtifact | ripple/BRRippleTransaction.c:107-115 | the artifact and its buffer are released: the record has no artifact and nothing is leaked |
| RippleTransaction.Transaction.Free | ripple/BRRippleTransaction.c:151-163 | the artifact and the memo list are released and nothing is leaked |
| RippleTransaction.Transaction.GetHash | ripple/BRRippleTransaction.c:323-334 | zero when the record has no artifact, otherwise the artifact's hash |
| RippleTransaction.Transaction.GetAccountTxnId | ripple/BRRippleTransaction.c:336-347 | the record's AccountTxnID hash, all 32 bytes copied |
| RippleTransaction.Transaction.GetType | ripple/BRRippleTransaction.c:349-353 | the record's transaction type |
| RippleTransaction.Transaction.GetFee | ripple/BRRippleTransaction.c:355-359 | the fee as a drop count: the native `u64Amount` view of the fee's Amount union |
| RippleTransaction.Transaction.GetAmount | ripple/BRRippleTransaction.c:360-364 | the payment amount as a drop count: the native `u64Amount` view of the amount's Amount union |
| RippleTransaction.Transaction.GetSequence | ripple/BRRippleTransaction.c:365-369 | the record's sequence number |
| RippleTransaction.Transaction.GetFlags | ripple/BRRippleTransaction.c:370-374 | the record's flags |
| RippleTransaction.Transaction.GetSource | ripple/BRRippleTransaction.c:375-379 | the source (Account) address |
| RippleTransaction.Transaction.GetTarget | ripple/BRRippleTransaction.c:380-384 | the payment's target (Destination) address |
| RippleTransaction.Transaction.GetPublicKey | ripple/BRRippleTransaction.c:386-390 | the signing public key |
| RippleTransaction.Transaction.GetSignature | ripple/BRRippleTransaction.c:392-396 | the signature record decoded into the record |
| RippleTransaction.Transaction.GetInvoiceId | ripple/BRRippleTransaction.c:398-405 | the payment's invoice ID, all 32 bytes copied |
| RippleTransaction.Transaction.GetSourceTag | ripple/BRRippleTransaction.c:407-411 | the source tag |
| RippleTransaction.Transaction.GetDestinationTag | ripple/BRRippleTransaction.c:413-417 | the payment's destination tag |
| RippleTransaction.Transaction.GetLastLedgerSequence | ripple/BRRippleTransaction.c:419-423 | the last ledger sequence, 0 when unset |
| RippleTransaction.Transaction.GetAmountRaw | ripple/BRRippleTransaction.c:425-446 | the amount selector returns the payment amount, the send maximum, the delivery minimum or the fee; any other selector gives an amount with currency type -1 |
| FieldDecode.AmountRawAfterDispatch | ripple/BRRippleTransaction.c:425-446 | after an Amount field is decoded, a valid selector returns that field's amount when the tag table names the selector's slot for the field, and its old amount otherwise; an invalid selector always gives currency type -1 |
| FieldEncode.PrefixFields | ripple/BRRippleTransaction.c:168-203 | the eight fixed fields carry the tags (8,1) (1,2) (2,4) (6,8) (8,3) (6,1) (7,3) (2,2), in that order |
| FieldEncode.EncodeCount | ripple/BRRippleTransaction.c:205-218 | the field count is 8 + (signature given ? 1 : 0) + (last ledger sequence > 0 ? 1 : 0), so between 8 and the buffer's 10 |
| FieldEncode.EncodeOrder | ripple/BRRippleTransaction.c:165-219 | the encoding is the prefix tags in order, then (7,4) if signed, then (2,27) as the last field if the last ledger sequence is set |
| FieldEncode.EncodeOptionality | ripple/BRRippleTransaction.c:205-216 | the last-ledger field is present if and only if the value is > 0; the signature field is present if and only if a signature is given |
| FieldEncode.SignedExtendsUnsigned | ripple/BRRippleTransaction.c:205-210 | the signed encoding is the unsigned one with the signature inserted after the eight prefix fields |
| FieldEncode.EncodeTagsDistinct | ripple/BRRippleTransaction.c:165-219 | no tag occurs twice in an encoding |
| RippleTransaction.Transaction.SetFieldInfo | ripple/BRRippleTransaction.c:165-219 | the returned count of fields written to the caller's array is exactly the encoding; slots beyond the count are untouched |
| FieldDecode.DispatchByTable | ripple/BRRippleTransaction.c:456-513 | dispatching a field writes only the slot that the decode tag table names for its tag, with the field's value; every other slot, the artifact and the memo list are unchanged |
| FieldDecode.DispatchIgnoresUnknown | ripple/BRRippleTransaction.c:459-511 | a field whose tag is not in the table leaves the record unchanged |
| FieldDecode.AsWrittenDiffersOnlyOnFallThrough | ripple/BRRippleTransaction.c:486-502 | the dispatch as written differs from the intended one only on Amount fields with field code 3 or 4 |
| FieldDecode.FallThroughOverwritesPublicKey | ripple/BRRippleTransaction.c:486-502 | a (6,3) Amount field is ignored by the intended dispatch but overwrites the public key in the dispatch as written |
| FieldDecode.DecodeLastWriterWins | ripple/BRRippleTransaction.c:456-513 | after decoding a list, each slot holds the value of the last field naming it, or its old content if no field names it |
| FieldDecode.DecodeKeepsArtifactAndMemos | ripple/BRRippleTransaction.c:456-513 | decoding never changes the artifact or the memo list |
| FieldDecode.DecodeSkipsUnknown | ripple/BRRippleTransaction.c:456-513 | removing a field with an unknown tag from anywhere in the list does not change the decoded record |
| FieldDecode.MemoFieldIgnoredByDispatch | ripple/BRRippleTransaction.c:459-511 | the memo field (15,9) is not dispatched; only the memo hand-over reads it |
| FieldDecode.MemosWithoutMemoField | ripple/BRRippleTransaction.c:528-534 | without a (15,9) field the record keeps its memo list |
| FieldDecode.MemosFromLastMemoField | ripple/BRRippleTransaction.c:528-534 | with (15,9) fields present the record takes the memo list of the last one |
| FieldDecode.DecodeOfEncodeRecovers | ripple/BRRippleTransaction.c:165-219 | decoding the signed encoding into a zero-filled record gives back source, type, sequence, fee, target, amount, public key, flags, signature and last ledger sequence |
| RippleTransaction.Transaction.GetFieldInfo | ripple/BRRippleTransaction.c:456-513 | the record's new value is the dispatch of every field, in order, applied to its old value |
| RippleTransaction.Transaction.ApplyField | ripple/BRRippleTransaction.c:459-511 | one arm of the switch changes the record exactly as the intended dispatch does |
| Sealing.SerializeFields | ripple/BRRippleTransaction.c:239-254 | a produced artifact's size never exceeds its buffer |
| Sealing.SerializeFieldsOutcome | ripple/BRRippleTransaction.c:239-254 | failure if and only if the probe is <= 0 or the write returns 0; otherwise the buffer has probe + 512 bytes, starts with exactly the encoder's output followed by zeros, the size is the encoder's returned length and the hash is still zero |
| RippleTransaction.Transaction.Serialize | ripple/BRRippleTransaction.c:227-255 | the result is the serialization of the record's encoding, with the signature if one is given |
| RippleTransaction.CreateTransactionHash | ripple/BRRippleTransaction.c:257-275 | the artifact's hash becomes the first 32 bytes of SHA-512 over "TXN\0" followed by its first `size` bytes; the rest of the artifact is unchanged |
| Sealing.SealOutcome | ripple/BRRippleTransaction.c:295-311 | a seal fails if and only if one of the two passes fails; a successful seal holds the encoder's output for the fields signed over the unsigned bytes, and their hash |
| Sealing.HashAfterSeal | ripple/BRRippleTransaction.c:304-334 | after sealing, the record's hash is the hash of the signed bytes, or zero after a failure |
| RippleTransaction.Transaction.SerializeAndSign | ripple/BRRippleTransaction.c:277-312 | sequence, last ledger sequence and public key equal the arguments; any previous artifact is gone; the result is the record's new artifact, the seal of the stamped record or nothing; the hash matches the signed bytes; the leaks are logged |
| FieldDecode.FromBytesHasNoArtifact | ripple/BRRippleTransaction.c:515-538 | a record created from bytes has no artifact, and no memo list unless a memo field was decoded |
| RippleTransaction.CreateFromBytes | ripple/BRRippleTransaction.c:515-538 | the new record is the decode of the deserialized fields into a zero-filled record, with the memo list of the last memo field; every earlier memo list it overwrote is logged as leaked, in order |
| FieldDecode.NothingDroppedWithoutMemoField | ripple/BRRippleTransaction.c:529-534 | without a memo field the hand-over drops no memo list |
| FieldDecode.SecondMemoFieldDropsFirst | ripple/BRRippleTransaction.c:529-534 | with two memo fields the record keeps the second list and the first one is dropped unreleased |
| Sealing.SealRoundTrip | ripple/BRRippleTransaction.c:277-311 | with a decoder that inverts the encoder, creating a record from the signed bytes reproduces source, target, amount, fee, sequence, flags, public key, type and last ledger sequence |
| Sealing.EndToEndExample | ripple/BRRippleTransaction.c:124-311 | a 1000000-drop payment with a 12-drop fee, signed with sequence 5 and last ledger sequence 0, has no last-ledger field and decodes to amount 1000000, fee 12 and sequence 5 |

## Left out

- Heap memory (`malloc`, `calloc`, `free`, the `BRArray` macros) is not modelled. Ownership is an optional artifact that is replaced wholesale. Memory dropped without release is recorded in the ghost log `Leaked`: replaced artifact buffers, the unsigned serialization and signature of each signing pass, and overwritten memo lists.
- The byte encoder and decoder, `signBytes` and SHA-512 are abstract function values. Their internals are defined in other files of the repository and are not part of this model.
- `BRKey`, the address encoding and the memo list are opaque values. Memo-list parsing and `memoListFree` are not modelled.
- Reading a union member other than the one stored reinterprets bytes in the source. In the model such a read yields the zero value of the requested kind.
- Amount: issued-currency parts are one opaque byte sequence, and the `double` view of the amount union is left out (floating point).
- RippleTransaction.Transaction.GetAmountRaw: the out-of-range result leaves every field except the currency type uninitialised in the source. The model sets them to zero.
- RippleTransaction.Transaction.SerializeAndSign: where the source dereferences a null unsigned serialization, the model ends the call with no artifact. No behaviour is defined for that case in the source.
- The artifact's `size` is a natural number; the source stores it in 32 bits. Signed overflow of `size + 512` for probe results near 2^31 is not modelled, and neither is a negative return from the second encoder call.
- The signature is copied into the field record without a length bound in the source. The capacity of the signature record is defined in a header that is not part of this model.
- The numeric value of RIPPLE_TX_TYPE_UNKNOWN is taken as -1 (0xFFFF as a 16-bit field), and RIPPLE_TX_TYPE_PAYMENT as 0. The header that defines them is not part of this model.
- `getSerializedSize` and `getSerializedBytes` are the `size` and `buffer` fields of `RippleTypes.Artifact`.
- Java/CoreCrypto/src/main/java/com/breadwallet/corecrypto/Network.java is not part of this model. It is a thin JNI wrapper over the native network object.
- Concurrency is not modelled: the record is single-threaded by design.

## Findings

| source | as written | input that shows it | evidently intended | confidence | as-written member | corrected member |
|---|---|---|---|---|---|---|
| ripple/BRRippleTransaction.c:495-496 | the Amount arm of the decode switch has no `break` and falls through into the Blob arm | a (6,3) Amount field (LimitAmount) decoded into a record whose public key is not zero: the public key is overwritten | each type code is handled by its own arm only | high; not executed | FieldDecode.FallThroughOverwritesPublicKey | FieldDecode.DispatchByTable |

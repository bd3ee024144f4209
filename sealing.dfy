/**
 * The sign-and-seal protocol as functions of a record value: one
 * serialization pass (probe, allocate with a safety margin, write), the
 * transaction hash, and the two passes with the signature in between.
 */
module Sealing {
  import opened RippleTypes
  import opened External
  import opened FieldEncode
  import opened FieldDecode

  /** Extra bytes allocated beyond the encoder's size estimate, as a defence
      against drift between its size probe and the actual encoding. */
  const SafetyMargin := 512

  /** rippleTransactionSerialize on a field list: nothing when the size probe
      is not positive or the encoder reports 0 bytes; otherwise a zero-filled
      buffer of probe + SafetyMargin bytes that starts with what the encoder
      wrote, whose size is the encoder's returned length, and whose hash is
      still all zero. */
  function SerializeFields(x: Collaborators, fs: seq<Field>): (r: Option<Artifact>)
    requires x.Valid()
    ensures r.Some? ==> r.value.Valid()
  {
    var size := x.probe(fs);
    if size <= 0 then None
    else
      var capacity := size + SafetyMargin;
      var written := x.write(fs, capacity);
      if |written| == 0 then None
      else Some(Artifact(|written|, written + Zeros(capacity - |written|), ZeroHash))
  }

  /** The outcome of one serialization pass, failure cases included. */
  lemma SerializeFieldsOutcome(x: Collaborators, fs: seq<Field>)
    requires x.Valid()
    ensures SerializeFields(x, fs).None? <==> x.probe(fs) <= 0 || |x.write(fs, x.probe(fs) + SafetyMargin)| == 0
    ensures SerializeFields(x, fs).Some? ==>
      var a := SerializeFields(x, fs).value;
      var written := x.write(fs, x.probe(fs) + SafetyMargin);
      && |a.buffer| == x.probe(fs) + SafetyMargin
      && a.size == |written| && a.Bytes() == written
      && (forall i :: a.size <= i < |a.buffer| ==> a.buffer[i] == 0)
      && a.txHash == ZeroHash
  {
    if SerializeFields(x, fs).Some? {
      var a := SerializeFields(x, fs).value;
      var written := x.write(fs, x.probe(fs) + SafetyMargin);
      assert a.buffer == written + Zeros(|a.buffer| - |written|);
      assert a.Bytes() == written;
    }
  }

  /** The transaction-ID prefix "TXN\0" of the XRP Ledger. */
  const TxnPrefix: seq<byte> := ['T' as int, 'X' as int, 'N' as int, 0]

  /** The transaction hash: the first 32 bytes of SHA-512 over the prefix
      followed by the signed bytes. */
  function TxHash(x: Collaborators, signed: seq<byte>): Hash32
    requires x.Valid()
  {
    x.sha512(TxnPrefix + signed)[..32]
  }

  /** The parameters rippleTransactionSerializeAndSign stamps on the record
      after dropping its previous artifact. */
  function Stamp(s: TxState, sequence: u32, lastLedgerSequence: u32, publicKey: Key): (t: TxState)
  {
    s.(signedBytes := None, sequence := sequence, lastLedgerSequence := lastLedgerSequence, publicKey := publicKey)
  }

  /** The unsigned serialization pass. */
  function UnsignedPass(x: Collaborators, s: TxState): (r: Option<Artifact>)
    requires x.Valid()
    ensures r.Some? ==> r.value.Valid()
  {
    SerializeFields(x, EncodeFields(s, None))
  }

  /** The signature over the unsigned bytes. */
  function SignatureOver(x: Collaborators, s: TxState, privateKey: Key): Signature
    requires x.Valid() && UnsignedPass(x, s).Some?
  {
    x.signBytes(privateKey, UnsignedPass(x, s).value.Bytes())
  }

  /** The two-pass protocol on a stamped record: encode unsigned, sign those
      bytes, encode again with the signature, hash the result. A failure of
      either pass yields no artifact. */
  function Seal(x: Collaborators, s: TxState, privateKey: Key): (r: Option<Artifact>)
    requires x.Valid()
  {
    if UnsignedPass(x, s).None? then None
    else
      match SerializeFields(x, EncodeFields(s, Some(SignatureOver(x, s, privateKey))))
      case None => None
      case Some(a) => Some(a.(txHash := TxHash(x, a.Bytes())))
  }

  /** What a successful seal holds: the encoder's output for the fields
      with the signature over the unsigned encoding, and the hash of those
      bytes; it fails exactly when one of the two passes fails. */
  lemma SealOutcome(x: Collaborators, s: TxState, privateKey: Key)
    requires x.Valid()
    ensures Seal(x, s, privateKey).None? <==>
      UnsignedPass(x, s).None? || SerializeFields(x, EncodeFields(s, Some(SignatureOver(x, s, privateKey)))).None?
    ensures Seal(x, s, privateKey).Some? ==>
      var a := Seal(x, s, privateKey).value;
      var signedFields := EncodeFields(s, Some(SignatureOver(x, s, privateKey)));
      && a.Valid()
      && a.Bytes() == x.write(signedFields, x.probe(signedFields) + SafetyMargin)
      && |a.Bytes()| > 0
      && a.txHash == x.sha512(TxnPrefix + a.Bytes())[..32]
  {
    if Seal(x, s, privateKey).Some? {
      var signedFields := EncodeFields(s, Some(SignatureOver(x, s, privateKey)));
      SerializeFieldsOutcome(x, signedFields);
    }
  }

  /** After a seal the record's hash is the hash of the signed bytes, and
      after a failed seal it is all zero. */
  lemma HashAfterSeal(x: Collaborators, s: TxState, privateKey: Key)
    requires x.Valid()
    ensures var r := Seal(x, s, privateKey);
      && (r.Some? ==> HashOf(s.(signedBytes := r)) == TxHash(x, r.value.Bytes()))
      && (r.None? ==> HashOf(s.(signedBytes := r)) == ZeroHash)
  {
  }

  /** Round trip: with a decoder that inverts the encoder, decoding the bytes
      of a successful seal reproduces source, target, amount, fee, sequence,
      flags, public key, type and last ledger sequence of the sealed record,
      with amounts as XRP amounts of their drop counts. */
  lemma SealRoundTrip(x: Collaborators, s: TxState, privateKey: Key)
    requires x.Valid() && DecoderInvertsEncoder(x)
    requires Seal(x, s, privateKey).Some?
    ensures var d := FromBytes(x, Seal(x, s, privateKey).value.Bytes());
      && d.sourceAddress == s.sourceAddress
      && d.payment.targetAddress == s.payment.targetAddress
      && d.payment.amount == XrpAmount(s.payment.amount.u64Amount)
      && d.fee == XrpAmount(s.fee.u64Amount)
      && d.sequence == s.sequence
      && d.flags == s.flags
      && d.publicKey == s.publicKey
      && d.transactionType == s.transactionType
      && d.lastLedgerSequence == s.lastLedgerSequence
      && d.signature == SignatureOver(x, s, privateKey)
      && d.memos.None? && d.signedBytes.None?
  {
    var sig := SignatureOver(x, s, privateKey);
    var signedFields := EncodeFields(s, Some(sig));
    SealOutcome(x, s, privateKey);
    var bytes := Seal(x, s, privateKey).value.Bytes();
    assert x.deserialize(bytes) == WireAll(signedFields);
    DecodeOfEncodeRecovers(s, sig);
    EncodeHasNoMemoField(s, Some(sig));
    MemosWithoutMemoField(DecodeAll(ZeroState, WireAll(signedFields)).memos, WireAll(signedFields));
  }

  /** The end-to-end example: a fresh 1000000-drop payment with a 12-drop
      fee, signed with sequence 5 and no last ledger sequence, encodes no
      last-ledger field and decodes to amount 1000000, fee 12, sequence 5. */
  lemma EndToEndExample(x: Collaborators, a: Address, b: Address, privateKey: Key, publicKey: Key)
    requires x.Valid() && DecoderInvertsEncoder(x)
    requires Seal(x, Stamp(FreshState(a, b, 1000000, 12), 5, 0, publicKey), privateKey).Some?
    ensures var s := Stamp(FreshState(a, b, 1000000, 12), 5, 0, publicKey);
      var d := FromBytes(x, Seal(x, s, privateKey).value.Bytes());
      && !HasTag(EncodeFields(s, Some(SignatureOver(x, s, privateKey))), LastLedgerTag)
      && d.payment.amount.u64Amount == 1000000 && d.fee.u64Amount == 12
      && d.sequence == 5 && d.lastLedgerSequence == 0
      && d.flags == FullyCanonicalSig
  {
    var s := Stamp(FreshState(a, b, 1000000, 12), 5, 0, publicKey);
    SealRoundTrip(x, s, privateKey);
    EncodeOptionality(s, Some(SignatureOver(x, s, privateKey)));
  }
}

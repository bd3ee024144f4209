/**
 * Encode direction of the field mapper: the ordered list of tagged fields
 * that setFieldInfo produces for a payment record, with or without a
 * signature. Tags are (type code, field code) pairs of the XRP Ledger
 * binary serialization format.
 */
module FieldEncode {
  import opened RippleTypes

  /** Capacity of the caller's field buffer (`BRRippleField fields[10]`). */
  const MaxFields := 10

  /** The eight fields every encoding starts with, in order: Account,
      TransactionType, Sequence, Fee, Destination, Amount, SigningPubKey,
      Flags. */
  const PrefixTags: seq<(int, int)> := [(8, 1), (1, 2), (2, 4), (6, 8), (8, 3), (6, 1), (7, 3), (2, 2)]

  const SignatureTag := (7, 4)
  const LastLedgerTag := (2, 27)

  function SignatureField(sig: Signature): Field
  {
    Field(7, 4, SignatureData(sig), None)
  }

  /** The fixed prefix: every field but the optional signature and last
      ledger sequence. Amounts are written as their drop count. */
  function PrefixFields(s: TxState): (fs: seq<Field>)
    ensures |fs| == |PrefixTags|
    ensures forall i :: 0 <= i < |fs| ==> Tag(fs[i]) == PrefixTags[i]
  {
    [ Field(8, 1, AddressData(s.sourceAddress), None),
      Field(1, 2, I16(TxTypeCode(s.transactionType)), None),
      Field(2, 4, I32(s.sequence), None),
      Field(6, 8, I64(s.fee.u64Amount), None),
      Field(8, 3, AddressData(s.payment.targetAddress), None),
      Field(6, 1, I64(s.payment.amount.u64Amount), None),
      Field(7, 3, PublicKeyData(s.publicKey), None),
      Field(2, 2, I32(s.flags), None) ]
  }

  /** setFieldInfo: the prefix, then the signature only when one is given,
      then the last ledger sequence only when it is set (non-zero). */
  function EncodeFields(s: TxState, sig: Option<Signature>): (fs: seq<Field>)
  {
    PrefixFields(s)
    + (if sig.Some? then [SignatureField(sig.value)] else [])
    + (if s.lastLedgerSequence > 0 then [Field(2, 27, I32(s.lastLedgerSequence), None)] else [])
  }

  predicate HasTag(fs: seq<Field>, t: (int, int))
  {
    exists i :: 0 <= i < |fs| && Tag(fs[i]) == t
  }

  /** The field count is 8 plus one per optional field present, so it never
      exceeds the caller's buffer of MaxFields. */
  lemma EncodeCount(s: TxState, sig: Option<Signature>)
    ensures |EncodeFields(s, sig)| == 8 + (if sig.Some? then 1 else 0) + (if s.lastLedgerSequence > 0 then 1 else 0)
    ensures 8 <= |EncodeFields(s, sig)| <= MaxFields
  {
  }

  /** The fixed order: the prefix tags, then (7,4) if signed, then (2,27)
      if the last ledger sequence is set. */
  lemma EncodeOrder(s: TxState, sig: Option<Signature>)
    ensures var fs := EncodeFields(s, sig);
      && (forall i :: 0 <= i < 8 ==> Tag(fs[i]) == PrefixTags[i])
      && (sig.Some? ==> Tag(fs[8]) == SignatureTag)
      && (s.lastLedgerSequence > 0 ==> Tag(fs[|fs| - 1]) == LastLedgerTag)
  {
  }

  /** Optionality is by omission: each optional field is present exactly when
      its value is given. */
  lemma EncodeOptionality(s: TxState, sig: Option<Signature>)
    ensures HasTag(EncodeFields(s, sig), LastLedgerTag) <==> s.lastLedgerSequence > 0
    ensures HasTag(EncodeFields(s, sig), SignatureTag) <==> sig.Some?
  {
    var fs := EncodeFields(s, sig);
    EncodeOrder(s, sig);
    assert forall i :: 0 <= i < |fs| ==> Tag(fs[i]) in PrefixTags + [SignatureTag] || Tag(fs[i]) == LastLedgerTag;
    if s.lastLedgerSequence > 0 {
      assert Tag(fs[|fs| - 1]) == LastLedgerTag;
    } else {
      assert forall i :: 0 <= i < |fs| ==> Tag(fs[i]) != LastLedgerTag;
    }
    if sig.Some? {
      assert Tag(fs[8]) == SignatureTag;
    } else {
      assert forall i :: 0 <= i < |fs| ==> Tag(fs[i]) != SignatureTag;
    }
  }

  /** The signed encoding is the unsigned one with the signature field
      inserted after the prefix: both passes agree on every other field and
      on their order, so the signature covers exactly the signed content. */
  lemma SignedExtendsUnsigned(s: TxState, sig: Signature)
    ensures var u := EncodeFields(s, None);
      EncodeFields(s, Some(sig)) == u[..8] + [SignatureField(sig)] + u[8..]
  {
  }

  /** No tag occurs twice in an encoding. */
  lemma EncodeTagsDistinct(s: TxState, sig: Option<Signature>)
    ensures var fs := EncodeFields(s, sig);
      forall i, j :: 0 <= i < j < |fs| ==> Tag(fs[i]) != Tag(fs[j])
  {
  }
}

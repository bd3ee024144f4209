/**
 * Decode direction of the field mapper: getFieldInfo's dispatch of each
 * tagged field to the record slot its (type code, field code) names, the
 * fold of that dispatch over a field list, and the memo hand-over of
 * rippleTransactionCreateFromBytes.
 */
module FieldDecode {
  import opened RippleTypes
  import opened FieldEncode
  import opened External

  /** The record slots a decoded field can assign. */
  datatype Slot =
    | TypeSlot | FlagsSlot | SourceTagSlot | SequenceSlot | DestinationTagSlot | LastLedgerSlot
    | AccountTxnIdSlot | InvoiceIdSlot
    | FeeSlot | AmountSlot | SendMaxSlot | DeliverMinSlot
    | PublicKeySlot | SignatureSlot
    | SourceSlot | TargetSlot

  /** The decode tag table: which slot each recognised tag names. */
  const DecodeTable: map<(int, int), Slot> := map[
    (1, 2) := TypeSlot,
    (2, 2) := FlagsSlot, (2, 3) := SourceTagSlot, (2, 4) := SequenceSlot,
    (2, 14) := DestinationTagSlot, (2, 27) := LastLedgerSlot,
    (5, 9) := AccountTxnIdSlot, (5, 17) := InvoiceIdSlot,
    (6, 8) := FeeSlot, (6, 1) := AmountSlot, (6, 9) := SendMaxSlot, (6, 10) := DeliverMinSlot,
    (7, 3) := PublicKeySlot, (7, 4) := SignatureSlot,
    (8, 1) := SourceSlot, (8, 3) := TargetSlot]

  function SlotOf(t: (int, int)): Option<Slot>
  {
    if t in DecodeTable then Some(DecodeTable[t]) else None
  }

  /** The content of one slot, whatever its type. */
  datatype SlotValue =
    | TypeV(t: TxType) | U32V(u: u32) | HashV(h: Hash32) | AmountV(a: Amount)
    | KeyV(k: Key) | SigV(sg: Signature) | AddrV(ad: Address)

  function Get(s: TxState, k: Slot): SlotValue
  {
    match k
    case TypeSlot => TypeV(s.transactionType)
    case FlagsSlot => U32V(s.flags)
    case SourceTagSlot => U32V(s.sourceTag)
    case SequenceSlot => U32V(s.sequence)
    case DestinationTagSlot => U32V(s.payment.destinationTag)
    case LastLedgerSlot => U32V(s.lastLedgerSequence)
    case AccountTxnIdSlot => HashV(s.accountTxnID)
    case InvoiceIdSlot => HashV(s.payment.invoiceId)
    case FeeSlot => AmountV(s.fee)
    case AmountSlot => AmountV(s.payment.amount)
    case SendMaxSlot => AmountV(s.payment.sendMax)
    case DeliverMinSlot => AmountV(s.payment.deliverMin)
    case PublicKeySlot => KeyV(s.publicKey)
    case SignatureSlot => SigV(s.signature)
    case SourceSlot => AddrV(s.sourceAddress)
    case TargetSlot => AddrV(s.payment.targetAddress)
  }

  /** What a field's data puts into slot k: the union member of the slot's
      kind, and for the transaction type its mapped enumerator. */
  function Read(k: Slot, d: FieldData): SlotValue
  {
    match k
    case TypeSlot => TypeV(MapTransactionType(AsI16(d)))
    case FlagsSlot => U32V(AsI32(d))
    case SourceTagSlot => U32V(AsI32(d))
    case SequenceSlot => U32V(AsI32(d))
    case DestinationTagSlot => U32V(AsI32(d))
    case LastLedgerSlot => U32V(AsI32(d))
    case AccountTxnIdSlot => HashV(AsHash(d))
    case InvoiceIdSlot => HashV(AsHash(d))
    case FeeSlot => AmountV(AsAmount(d))
    case AmountSlot => AmountV(AsAmount(d))
    case SendMaxSlot => AmountV(AsAmount(d))
    case DeliverMinSlot => AmountV(AsAmount(d))
    case PublicKeySlot => KeyV(AsKey(d))
    case SignatureSlot => SigV(AsSignature(d))
    case SourceSlot => AddrV(AsAddress(d))
    case TargetSlot => AddrV(AsAddress(d))
  }

  // The per-type-code arms of getFieldInfo's switch.

  function DecodeType1(s: TxState, f: Field): TxState
  {
    if f.fieldCode == 2 then s.(transactionType := MapTransactionType(AsI16(f.data))) else s
  }

  function DecodeType2(s: TxState, f: Field): TxState
  {
    var v := AsI32(f.data);
    if f.fieldCode == 2 then s.(flags := v)
    else if f.fieldCode == 3 then s.(sourceTag := v)
    else if f.fieldCode == 4 then s.(sequence := v)
    else if f.fieldCode == 14 then s.(payment := s.payment.(destinationTag := v))
    else if f.fieldCode == 27 then s.(lastLedgerSequence := v)
    else s
  }

  function DecodeType5(s: TxState, f: Field): TxState
  {
    if f.fieldCode == 9 then s.(accountTxnID := AsHash(f.data))
    else if f.fieldCode == 17 then s.(payment := s.payment.(invoiceId := AsHash(f.data)))
    else s
  }

  function DecodeType6(s: TxState, f: Field): TxState
  {
    var a := AsAmount(f.data);
    if f.fieldCode == 8 then s.(fee := a)
    else if f.fieldCode == 1 then s.(payment := s.payment.(amount := a))
    else if f.fieldCode == 9 then s.(payment := s.payment.(sendMax := a))
    else if f.fieldCode == 10 then s.(payment := s.payment.(deliverMin := a))
    else s
  }

  function DecodeType7(s: TxState, f: Field): TxState
  {
    if f.fieldCode == 3 then s.(publicKey := AsKey(f.data))
    else if f.fieldCode == 4 then s.(signature := AsSignature(f.data))
    else s
  }

  function DecodeType8(s: TxState, f: Field): TxState
  {
    if f.fieldCode == 1 then s.(sourceAddress := AsAddress(f.data))
    else if f.fieldCode == 3 then s.(payment := s.payment.(targetAddress := AsAddress(f.data)))
    else s
  }

  /** getFieldInfo's dispatch of one field, as intended: one arm per type
      code, unknown type or field codes leave the record as it is. */
  function Dispatch(s: TxState, f: Field): TxState
  {
    match f.typeCode
    case 1 => DecodeType1(s, f)
    case 2 => DecodeType2(s, f)
    case 5 => DecodeType5(s, f)
    case 6 => DecodeType6(s, f)
    case 7 => DecodeType7(s, f)
    case 8 => DecodeType8(s, f)
    case _ => s
  }

  /** The dispatch as the source writes it: the Amount arm has no `break`,
      so every type-6 field also runs the Blob arm. */
  function DispatchAsWritten(s: TxState, f: Field): TxState
  {
    match f.typeCode
    case 1 => DecodeType1(s, f)
    case 2 => DecodeType2(s, f)
    case 5 => DecodeType5(s, f)
    case 6 => DecodeType7(DecodeType6(s, f), f)
    case 7 => DecodeType7(s, f)
    case 8 => DecodeType8(s, f)
    case _ => s
  }

  /** The dispatch agrees with the tag table: it writes the slot the table
      names for the field's tag, with the field's value, and leaves every
      other slot, the artifact and the memo list as they were. */
  lemma DispatchByTable(s: TxState, f: Field, k: Slot)
    ensures Get(Dispatch(s, f), k) == if SlotOf(Tag(f)) == Some(k) then Read(k, f.data) else Get(s, k)
    ensures Dispatch(s, f).signedBytes == s.signedBytes && Dispatch(s, f).memos == s.memos
  {
  }

  /** The slots, the artifact and the memo list make up the whole record. */
  lemma SlotsDetermineState(s: TxState, t: TxState)
    requires forall k :: Get(s, k) == Get(t, k)
    requires s.signedBytes == t.signedBytes && s.memos == t.memos
    ensures s == t
  {
    assert Get(s, TypeSlot) == Get(t, TypeSlot);
    assert Get(s, FlagsSlot) == Get(t, FlagsSlot);
    assert Get(s, SourceTagSlot) == Get(t, SourceTagSlot);
    assert Get(s, SequenceSlot) == Get(t, SequenceSlot);
    assert Get(s, DestinationTagSlot) == Get(t, DestinationTagSlot);
    assert Get(s, LastLedgerSlot) == Get(t, LastLedgerSlot);
    assert Get(s, AccountTxnIdSlot) == Get(t, AccountTxnIdSlot);
    assert Get(s, InvoiceIdSlot) == Get(t, InvoiceIdSlot);
    assert Get(s, FeeSlot) == Get(t, FeeSlot);
    assert Get(s, AmountSlot) == Get(t, AmountSlot);
    assert Get(s, SendMaxSlot) == Get(t, SendMaxSlot);
    assert Get(s, DeliverMinSlot) == Get(t, DeliverMinSlot);
    assert Get(s, PublicKeySlot) == Get(t, PublicKeySlot);
    assert Get(s, SignatureSlot) == Get(t, SignatureSlot);
    assert Get(s, SourceSlot) == Get(t, SourceSlot);
    assert Get(s, TargetSlot) == Get(t, TargetSlot);
  }

  /** A field whose tag is not in the table changes nothing. */
  lemma DispatchIgnoresUnknown(s: TxState, f: Field)
    requires SlotOf(Tag(f)).None?
    ensures Dispatch(s, f) == s
  {
    forall k ensures Get(Dispatch(s, f), k) == Get(s, k) {
      DispatchByTable(s, f, k);
    }
    DispatchByTable(s, f, TypeSlot);
    SlotsDetermineState(Dispatch(s, f), s);
  }

  /** The record slot each valid rippleTransactionGetAmountRaw selector reads. */
  function AmountSlotOf(which: AmountType): Slot
    requires !which.OtherAmountType?
  {
    match which
    case AmountOfPayment => AmountSlot
    case SendMax => SendMaxSlot
    case DeliverMin => DeliverMinSlot
    case FeeAmount => FeeSlot
  }

  /** getAmountRaw reads back what getFieldInfo decodes: after dispatching an
      Amount field, a valid selector returns that field's amount when the tag
      table names the selector's slot for the field, and its old amount
      otherwise; an out-of-range selector always gives currency type -1. */
  lemma AmountRawAfterDispatch(s: TxState, f: Field, which: AmountType)
    ensures which.OtherAmountType? ==> AmountRaw(Dispatch(s, f), which).currencyType == -1
    ensures !which.OtherAmountType? ==>
      AmountRaw(Dispatch(s, f), which) ==
        if SlotOf(Tag(f)) == Some(AmountSlotOf(which)) then AsAmount(f.data) else AmountRaw(s, which)
  {
  }

  /** The fall-through changes the outcome exactly for Amount fields with
      field code 3 or 4, which the Blob arm then stores as public key or
      signature. */
  lemma AsWrittenDiffersOnlyOnFallThrough(s: TxState, f: Field)
    ensures DispatchAsWritten(s, f) != Dispatch(s, f) ==> f.typeCode == 6 && (f.fieldCode == 3 || f.fieldCode == 4)
  {
  }

  /** An input that shows the fall-through: a (6,3) Amount field (LimitAmount
      in the XRP Ledger format) is ignored by the intended dispatch but
      overwrites the public key in the dispatch as written. */
  lemma FallThroughOverwritesPublicKey()
    ensures var s := ZeroState.(publicKey := Key([1]));
      var f := Field(6, 3, AmountData(XrpAmount(1)), None);
      Dispatch(s, f) == s && DispatchAsWritten(s, f).publicKey != s.publicKey
  {
  }

  /** getFieldInfo: the dispatch applied to each field in order. */
  function DecodeAll(s: TxState, fs: seq<Field>): TxState
  {
    if fs == [] then s else Dispatch(DecodeAll(s, fs[..|fs| - 1]), fs[|fs| - 1])
  }

  /** The last field of `fs` whose tag names slot k, if any. */
  function LastWrite(fs: seq<Field>, k: Slot): Option<Field>
  {
    if fs == [] then None
    else if SlotOf(Tag(fs[|fs| - 1])) == Some(k) then Some(fs[|fs| - 1])
    else LastWrite(fs[..|fs| - 1], k)
  }

  /** After decoding, each slot holds the value of the last field naming it,
      or its previous content when no field does. */
  lemma {:induction false} DecodeLastWriterWins(s: TxState, fs: seq<Field>, k: Slot)
    ensures Get(DecodeAll(s, fs), k) == match LastWrite(fs, k)
      case None => Get(s, k)
      case Some(f) => Read(k, f.data)
  {
    if fs != [] {
      DecodeLastWriterWins(s, fs[..|fs| - 1], k);
      DispatchByTable(DecodeAll(s, fs[..|fs| - 1]), fs[|fs| - 1], k);
    }
  }

  /** Decoding never touches the artifact or the memo list. */
  lemma {:induction false} DecodeKeepsArtifactAndMemos(s: TxState, fs: seq<Field>)
    ensures DecodeAll(s, fs).signedBytes == s.signedBytes
    ensures DecodeAll(s, fs).memos == s.memos
  {
    if fs != [] {
      DecodeKeepsArtifactAndMemos(s, fs[..|fs| - 1]);
      DispatchByTable(DecodeAll(s, fs[..|fs| - 1]), fs[|fs| - 1], TypeSlot);
    }
  }

  /** Removing a field with an unknown tag from anywhere in the list does not
      change the decoded record (forward compatibility). */
  lemma {:induction false} DecodeSkipsUnknown(s: TxState, before: seq<Field>, f: Field, after: seq<Field>)
    requires SlotOf(Tag(f)).None?
    ensures DecodeAll(s, before + [f] + after) == DecodeAll(s, before + after)
  {
    if after == [] {
      assert before + [f] + after == before + [f];
      assert (before + [f])[..|before + [f]| - 1] == before;
      assert before + after == before;
      DispatchIgnoresUnknown(DecodeAll(s, before), f);
    } else {
      var init := after[..|after| - 1];
      var last := after[|after| - 1];
      assert before + [f] + after == (before + [f] + init) + [last];
      assert (before + [f] + after)[..|before + [f] + after| - 1] == before + [f] + init;
      assert before + after == (before + init) + [last];
      assert (before + after)[..|before + after| - 1] == before + init;
      DecodeSkipsUnknown(s, before, f, init);
    }
  }

  /** The memo hand-over of rippleTransactionCreateFromBytes: the memo list
      of the last memo-array field (15, 9), or `m` when there is none. */
  function MemosAfter(m: Option<MemoList>, fs: seq<Field>): Option<MemoList>
  {
    if fs == [] then m
    else if Tag(fs[|fs| - 1]) == MemoTag then fs[|fs| - 1].memos
    else MemosAfter(m, fs[..|fs| - 1])
  }

  const MemoTag := (15, 9)

  predicate NoMemoField(fs: seq<Field>)
  {
    forall i :: 0 <= i < |fs| ==> Tag(fs[i]) != MemoTag
  }

  /** Without a memo field the record keeps the memo list it had. */
  lemma {:induction false} MemosWithoutMemoField(m: Option<MemoList>, fs: seq<Field>)
    requires NoMemoField(fs)
    ensures MemosAfter(m, fs) == m
  {
    if fs != [] {
      MemosWithoutMemoField(m, fs[..|fs| - 1]);
    }
  }

  /** With memo fields present the record takes the list of the last one. */
  lemma {:induction false} MemosFromLastMemoField(m: Option<MemoList>, fs: seq<Field>, i: nat)
    requires i < |fs| && Tag(fs[i]) == MemoTag && NoMemoField(fs[i + 1..])
    ensures MemosAfter(m, fs) == fs[i].memos
  {
    if i < |fs| - 1 {
      var init := fs[..|fs| - 1];
      assert fs[|fs| - 1] == fs[i + 1..][|fs| - 2 - i];
      assert init[i + 1..] == fs[i + 1..|fs| - 1];
      MemosFromLastMemoField(m, init, i);
    }
  }

  /** The memo lists the hand-over of rippleTransactionCreateFromBytes
      overwrites without releasing them, in order: each memo field replaces
      the list taken so far, which is dropped when there is one. */
  function MemosDropped(m: Option<MemoList>, fs: seq<Field>): seq<MemoList>
  {
    if fs == [] then []
    else
      var init := fs[..|fs| - 1];
      if Tag(fs[|fs| - 1]) == MemoTag && MemosAfter(m, init).Some?
      then MemosDropped(m, init) + [MemosAfter(m, init).value]
      else MemosDropped(m, init)
  }

  /** Without a memo field nothing is dropped. */
  lemma {:induction false} NothingDroppedWithoutMemoField(m: Option<MemoList>, fs: seq<Field>)
    requires NoMemoField(fs)
    ensures MemosDropped(m, fs) == []
  {
    if fs != [] {
      NothingDroppedWithoutMemoField(m, fs[..|fs| - 1]);
    }
  }

  /** Two memo fields: the second list is kept and the first one is dropped. */
  lemma SecondMemoFieldDropsFirst(m1: MemoList, m2: MemoList)
    ensures var fs := [Field(15, 9, I16(0), Some(m1)), Field(15, 9, I16(0), Some(m2))];
      MemosAfter(None, fs) == Some(m2) && MemosDropped(None, fs) == [m1]
  {
    var fs := [Field(15, 9, I16(0), Some(m1)), Field(15, 9, I16(0), Some(m2))];
    assert fs[..1][..0] == [];
    assert MemosAfter(None, fs[..1]) == Some(m1);
    assert MemosDropped(None, fs[..1]) == [];
  }

  /** A decoder that inverts the encoder: every non-empty encoding decodes to
      the wire view of the fields it came from. */
  ghost predicate DecoderInvertsEncoder(x: Collaborators)
  {
    forall fs, cap :: |x.write(fs, cap)| > 0 ==> x.deserialize(x.write(fs, cap)) == WireAll(fs)
  }

  /** rippleTransactionCreateFromBytes on values: decode into a zero-filled
      record, then hand over the memo list. */
  function FromBytes(x: Collaborators, bytes: seq<byte>): (t: TxState)
  {
    var fs := x.deserialize(bytes);
    var d := DecodeAll(ZeroState, fs);
    d.(memos := MemosAfter(d.memos, fs))
  }

  /** A decoded record starts zero-filled: no artifact, and memos only from a
      memo field. */
  lemma FromBytesHasNoArtifact(x: Collaborators, bytes: seq<byte>)
    ensures FromBytes(x, bytes).signedBytes.None?
    ensures NoMemoField(x.deserialize(bytes)) ==> FromBytes(x, bytes).memos.None?
  {
    var fs := x.deserialize(bytes);
    DecodeKeepsArtifactAndMemos(ZeroState, fs);
    if NoMemoField(fs) {
      MemosWithoutMemoField(DecodeAll(ZeroState, fs).memos, fs);
    }
  }

  /** The encoder never writes a memo field, so a decoded encoding leaves
      the memo list alone. */
  lemma EncodeHasNoMemoField(s: TxState, sig: Option<Signature>)
    ensures NoMemoField(WireAll(EncodeFields(s, sig)))
  {
  }

  /** The memo field is not in the decode table: getFieldInfo ignores it and
      only the memo hand-over reads it. */
  lemma MemoFieldIgnoredByDispatch(s: TxState, f: Field)
    requires Tag(f) == MemoTag
    ensures Dispatch(s, f) == s
  {
  }

  /** What the encoder/decoder pair hands back for an encoded field: the same
      tag and value, except that an Amount written as a drop count comes
      back as a native (XRP) Amount object. */
  function WireView(f: Field): Field
  {
    if f.typeCode == 6 && f.data.I64? then f.(data := AmountData(XrpAmount(f.data.v64))) else f
  }

  function WireAll(fs: seq<Field>): (ws: seq<Field>)
    ensures |ws| == |fs| && forall i :: 0 <= i < |fs| ==> ws[i] == WireView(fs[i])
  {
    seq(|fs|, i requires 0 <= i < |fs| => WireView(fs[i]))
  }

  /** Field-level round trip: decoding the (wire view of the) signed encoding
      into a zero-filled record recovers every encoded field; amounts come
      back as XRP amounts of the encoded drop counts, and an unset last ledger
      sequence stays 0. */
  lemma DecodeOfEncodeRecovers(s: TxState, sig: Signature)
    ensures var d := DecodeAll(ZeroState, WireAll(EncodeFields(s, Some(sig))));
      && d.sourceAddress == s.sourceAddress
      && d.transactionType == s.transactionType
      && d.sequence == s.sequence
      && d.fee == XrpAmount(s.fee.u64Amount)
      && d.payment.targetAddress == s.payment.targetAddress
      && d.payment.amount == XrpAmount(s.payment.amount.u64Amount)
      && d.publicKey == s.publicKey
      && d.flags == s.flags
      && d.signature == sig
      && d.lastLedgerSequence == s.lastLedgerSequence
      && d.memos.None? && d.signedBytes.None?
  {
    var ps := WireAll(PrefixFields(s));
    var ws := WireAll(EncodeFields(s, Some(sig)));
    var opt := if s.lastLedgerSequence > 0 then [Field(2, 27, I32(s.lastLedgerSequence), None)] else [];
    assert ws == ps + [SignatureField(sig)] + opt;
    DecodePrefix(s);
    DecodeSnoc(ZeroState, ps, SignatureField(sig));
    if s.lastLedgerSequence > 0 {
      DecodeSnoc(ZeroState, ps + [SignatureField(sig)], opt[0]);
    } else {
      assert ws == ps + [SignatureField(sig)];
    }
  }

  /** The record the eight prefix fields decode to. */
  function PrefixDecoded(s: TxState): TxState
  {
    ZeroState.(
      sourceAddress := s.sourceAddress,
      transactionType := MapTransactionType(TxTypeCode(s.transactionType)),
      sequence := s.sequence,
      fee := XrpAmount(s.fee.u64Amount),
      payment := ZeroState.payment.(
        targetAddress := s.payment.targetAddress,
        amount := XrpAmount(s.payment.amount.u64Amount)),
      publicKey := s.publicKey,
      flags := s.flags)
  }

  lemma DecodePrefix(s: TxState)
    ensures DecodeAll(ZeroState, WireAll(PrefixFields(s))) == PrefixDecoded(s)
  {
    var ps := WireAll(PrefixFields(s));
    var z := ZeroState;
    var d1 := z.(sourceAddress := s.sourceAddress);
    var d2 := d1.(transactionType := MapTransactionType(TxTypeCode(s.transactionType)));
    var d3 := d2.(sequence := s.sequence);
    var d4 := d3.(fee := XrpAmount(s.fee.u64Amount));
    var d5 := d4.(payment := d4.payment.(targetAddress := s.payment.targetAddress));
    var d6 := d5.(payment := d5.payment.(amount := XrpAmount(s.payment.amount.u64Amount)));
    var d7 := d6.(publicKey := s.publicKey);
    var d8 := d7.(flags := s.flags);
    assert ps[..0] == [];
    DecodeStep(z, ps, 0);
    assert DecodeAll(z, ps[..1]) == d1;
    DecodeStep(z, ps, 1);
    assert DecodeAll(z, ps[..2]) == d2;
    DecodeStep(z, ps, 2);
    assert DecodeAll(z, ps[..3]) == d3;
    DecodeStep(z, ps, 3);
    assert DecodeAll(z, ps[..4]) == d4;
    DecodeStep(z, ps, 4);
    assert DecodeAll(z, ps[..5]) == d5;
    DecodeStep(z, ps, 5);
    assert DecodeAll(z, ps[..6]) == d6;
    DecodeStep(z, ps, 6);
    assert DecodeAll(z, ps[..7]) == d7;
    DecodeStep(z, ps, 7);
    assert ps[..8] == ps;
  }

  /** Decoding a prefix one field longer applies one more dispatch. */
  lemma DecodeStep(s: TxState, fs: seq<Field>, i: nat)
    requires i < |fs|
    ensures DecodeAll(s, fs[..i + 1]) == Dispatch(DecodeAll(s, fs[..i]), fs[i])
  {
    assert fs[..i + 1][..i] == fs[..i];
  }

  lemma DecodeSnoc(s: TxState, fs: seq<Field>, f: Field)
    ensures DecodeAll(s, fs + [f]) == Dispatch(DecodeAll(s, fs), f)
  {
    assert (fs + [f])[..|fs|] == fs;
  }
}

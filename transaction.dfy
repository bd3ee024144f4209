/**
 * The transaction record as a mutable object: creation, release, the
 * field accessors, the encode-direction field mapper writing into the
 * caller's field buffer, the serialization and signing coordinator, and
 * creation from bytes through the decode-direction field mapper.
 */
module RippleTransaction {
  import opened RippleTypes
  import opened External
  import opened FieldEncode
  import opened FieldDecode
  import opened Sealing

  /** Memory the record drops without releasing it. */
  datatype Leak =
    | ArtifactBuffer(buffer: seq<byte>)   // buffer of a replaced artifact whose struct alone was freed
    | UnsignedArtifact(artifact: Artifact) // the unsigned serialization of a signing pass
    | SignatureRecord(sig: Signature)     // the signature of a signing pass
    | MemoListBuffer(memos: MemoList)     // a memo list overwritten by a later memo field

  /** The log entries for memo lists dropped in order. */
  function MemoLeaks(ms: seq<MemoList>): (ls: seq<Leak>)
    ensures |ls| == |ms| && forall i :: 0 <= i < |ms| ==> ls[i] == MemoListBuffer(ms[i])
  {
    seq(|ms|, i requires 0 <= i < |ms| => MemoListBuffer(ms[i]))
  }

  class Transaction {
    var sourceAddress: Address
    var transactionType: TxType
    var fee: Amount
    var sequence: u32
    var flags: u32
    var lastLedgerSequence: u32
    var publicKey: Key
    var payment: PaymentRecord
    var signedBytes: Option<Artifact>
    var signature: Signature
    var accountTxnID: Hash32
    var sourceTag: u32
    var memos: Option<MemoList>

    /** Everything the record has dropped without releasing it, in order. */
    ghost var Leaked: seq<Leak>

    /** The record's value. */
    function State(): TxState
      reads this
    {
      TxState(sourceAddress, transactionType, fee, sequence, flags, lastLedgerSequence,
              publicKey, payment, signedBytes, signature, accountTxnID, sourceTag, memos)
    }

    /** createTransactionObject: a zero-filled record. */
    constructor Zeroed()
      ensures State() == ZeroState && Leaked == []
    {
      sourceAddress, transactionType, fee := ZeroAddress, Payment, ZeroAmount;
      sequence, flags, lastLedgerSequence := 0, 0, 0;
      publicKey, payment := ZeroKey, ZeroState.payment;
      signedBytes, signature, accountTxnID := None, NoSignature, ZeroHash;
      sourceTag, memos := 0, None;
      Leaked := [];
    }

    /** rippleTransactionCreate: an XRP payment of `amount` drops with a fee of
        `fee` drops, the fully-canonical-signature flag, no last ledger
        sequence and no artifact; all other fields zero. */
    constructor Create(source: Address, target: Address, amount: u64, fee: u64)
      ensures State() == FreshState(source, target, amount, fee)
      ensures transactionType == Payment && flags == 0x8000_0000 && lastLedgerSequence == 0
      ensures this.fee == XrpAmount(fee) && payment.amount == XrpAmount(amount)
      ensures signedBytes.None? && GetHash() == ZeroHash
      ensures Leaked == []
    {
      sourceAddress, transactionType := source, Payment;
      this.fee := XrpAmount(fee);
      sequence, flags, lastLedgerSequence := 0, FullyCanonicalSig, 0;
      publicKey := ZeroKey;
      payment := ZeroState.payment.(targetAddress := target, amount := XrpAmount(amount));
      signedBytes, signature, accountTxnID := None, NoSignature, ZeroHash;
      sourceTag, memos := 0, None;
      Leaked := [];
    }

    /** rippleSerializedTransactionRecordFree on the record's artifact: the
        buffer and the artifact are both released. */
    method ReleaseArtifact()
      requires signedBytes.Some?
      modifies this
      ensures State() == old(State()).(signedBytes := None)
      ensures Leaked == old(Leaked)
    {
      signedBytes := None;
    }

    /** rippleTransactionFree: releases the artifact and the memo list; nothing
        the record owns is dropped unreleased. */
    method Free()
      modifies this
      ensures State() == old(State()).(signedBytes := None, memos := None)
      ensures Leaked == old(Leaked)
    {
      if signedBytes.Some? {
        ReleaseArtifact();
      }
      if memos.Some? {
        memos := None;
      }
    }

    // Field accessors: each returns one component of the record's value.

    function GetAccountTxnId(): (h: Hash32) reads this ensures h == State().accountTxnID { accountTxnID }
    function GetType(): (t: TxType) reads this ensures t == State().transactionType { transactionType }
    /** The fee as a drop count: the native (u64) view of the Amount union. */
    function GetFee(): (drops: u64) reads this ensures drops == State().fee.u64Amount { fee.u64Amount }
    /** The payment amount as a drop count: the native (u64) view of the
        Amount union. */
    function GetAmount(): (drops: u64) reads this ensures drops == State().payment.amount.u64Amount { payment.amount.u64Amount }
    function GetSequence(): (n: u32) reads this ensures n == State().sequence { sequence }
    function GetFlags(): (n: u32) reads this ensures n == State().flags { flags }
    function GetSource(): (ad: Address) reads this ensures ad == State().sourceAddress { sourceAddress }
    function GetTarget(): (ad: Address) reads this ensures ad == State().payment.targetAddress { payment.targetAddress }
    function GetPublicKey(): (k: Key) reads this ensures k == State().publicKey { publicKey }
    function GetSignature(): (sg: Signature) reads this ensures sg == State().signature { signature }
    function GetInvoiceId(): (h: Hash32) reads this ensures h == State().payment.invoiceId { payment.invoiceId }
    function GetSourceTag(): (n: u32) reads this ensures n == State().sourceTag { sourceTag }
    function GetDestinationTag(): (n: u32) reads this ensures n == State().payment.destinationTag { payment.destinationTag }
    function GetLastLedgerSequence(): (n: u32) reads this ensures n == State().lastLedgerSequence { lastLedgerSequence }

    /** rippleTransactionGetHash: the artifact's hash, all zero when the
        record has no artifact. */
    function GetHash(): (h: Hash32)
      reads this
      ensures signedBytes.None? ==> h == ZeroHash
      ensures signedBytes.Some? ==> h == signedBytes.value.txHash
    {
      HashOf(State())
    }

    /** rippleTransactionGetAmountRaw: the selected amount, or an amount with
        currency type -1 for a selector outside the enumeration. */
    function GetAmountRaw(which: AmountType): (a: Amount)
      reads this
      ensures which.OtherAmountType? ==> a.currencyType == -1
      ensures which == FeeAmount ==> a == fee
      ensures which == AmountOfPayment ==> a == payment.amount
      ensures which == SendMax ==> a == payment.sendMax
      ensures which == DeliverMin ==> a == payment.deliverMin
    {
      AmountRaw(State(), which)
    }

    /** setFieldInfo: writes the record's fields, in the canonical order, into
        the caller's buffer and returns how many it wrote. */
    method SetFieldInfo(fields: array<Field>, sig: Option<Signature>) returns (count: nat)
      requires fields.Length >= MaxFields
      modifies fields
      ensures count <= fields.Length && fields[..count] == EncodeFields(State(), sig)
      ensures fields[count..] == old(fields[count..])
    {
      var index := 0;
      fields[index] := Field(8, 1, AddressData(sourceAddress), None);
      index := index + 1;
      fields[index] := Field(1, 2, I16(TxTypeCode(transactionType)), None);
      index := index + 1;
      fields[index] := Field(2, 4, I32(sequence), None);
      index := index + 1;
      fields[index] := Field(6, 8, I64(fee.u64Amount), None);
      index := index + 1;
      fields[index] := Field(8, 3, AddressData(payment.targetAddress), None);
      index := index + 1;
      fields[index] := Field(6, 1, I64(payment.amount.u64Amount), None);
      index := index + 1;
      fields[index] := Field(7, 3, PublicKeyData(publicKey), None);
      index := index + 1;
      fields[index] := Field(2, 2, I32(flags), None);
      index := index + 1;
      assert fields[..index] == PrefixFields(State());
      if sig.Some? {
        fields[index] := SignatureField(sig.value);
        index := index + 1;
      }
      if lastLedgerSequence > 0 {
        fields[index] := Field(2, 27, I32(lastLedgerSequence), None);
        index := index + 1;
      }
      count := index;
    }

    /** rippleTransactionSerialize: encodes the record (with the signature if
        one is given) through the external encoder. */
    method Serialize(x: Collaborators, sig: Option<Signature>) returns (r: Option<Artifact>)
      requires x.Valid() && transactionType == Payment
      ensures r == SerializeFields(x, EncodeFields(State(), sig))
    {
      var fields := new Field[MaxFields](_ => Field(0, 0, I16(0), None));
      var numFields := SetFieldInfo(fields, sig);
      var fs := fields[..numFields];
      r := None;
      var size := x.probe(fs);
      if size > 0 {
        var capacity := size + SafetyMargin;
        var written := x.write(fs, capacity);
        if |written| != 0 {
          r := Some(Artifact(|written|, written + Zeros(capacity - |written|), ZeroHash));
        }
      }
    }

    /** rippleTransactionSerializeAndSign: drops the previous artifact, stamps
        sequence, last ledger sequence and public key, encodes unsigned, signs,
        encodes again with the signature and hashes; the result becomes the
        record's artifact. */
    method SerializeAndSign(x: Collaborators, privateKey: Key, publicKey: Key,
                            sequence: u32, lastLedgerSequence: u32) returns (r: Option<Artifact>)
      requires x.Valid() && transactionType == Payment
      modifies this
      ensures r == Seal(x, Stamp(old(State()), sequence, lastLedgerSequence, publicKey), privateKey)
      ensures State() == Stamp(old(State()), sequence, lastLedgerSequence, publicKey).(signedBytes := r)
      ensures this.sequence == sequence && this.lastLedgerSequence == lastLedgerSequence
      ensures this.publicKey == publicKey && signedBytes == r
      ensures r.Some? ==> GetHash() == TxHash(x, r.value.Bytes())
      ensures var stamped := Stamp(old(State()), sequence, lastLedgerSequence, publicKey);
        Leaked == old(Leaked)
          + (if old(signedBytes).Some? then [ArtifactBuffer(old(signedBytes).value.buffer)] else [])
          + (if UnsignedPass(x, stamped).Some?
             then [UnsignedArtifact(UnsignedPass(x, stamped).value), SignatureRecord(SignatureOver(x, stamped, privateKey))]
             else [])
    {
      if signedBytes.Some? {
        // Only the artifact struct is freed; its buffer is dropped.
        Leaked := Leaked + [ArtifactBuffer(signedBytes.value.buffer)];
        signedBytes := None;
      }
      this.sequence := sequence;
      this.lastLedgerSequence := lastLedgerSequence;
      this.publicKey := publicKey;
      ghost var stamped := State();

      var unsigned := Serialize(x, None);
      if unsigned.None? {
        // The unsigned pass failed: no artifact (the source dereferences null here).
        r := None;
        return;
      }
      var sig := x.signBytes(privateKey, unsigned.value.Bytes());
      signedBytes := Serialize(x, Some(sig));
      // Neither the unsigned serialization nor the signature is released.
      Leaked := Leaked + [UnsignedArtifact(unsigned.value), SignatureRecord(sig)];
      if signedBytes.Some? {
        var sealed := CreateTransactionHash(x, signedBytes.value);
        signedBytes := Some(sealed);
      }
      r := signedBytes;
    }

    /** getFieldInfo: dispatches every field, in order, into the record. */
    method GetFieldInfo(fields: seq<Field>)
      modifies this
      ensures State() == DecodeAll(old(State()), fields)
      ensures Leaked == old(Leaked)
    {
      for i := 0 to |fields|
        invariant State() == DecodeAll(old(State()), fields[..i])
        invariant Leaked == old(Leaked)
      {
        assert fields[..i + 1][..i] == fields[..i];
        ApplyField(fields[i]);
      }
      assert fields[..|fields|] == fields;
    }

    /** One arm of getFieldInfo's switch, per type code as intended. */
    method ApplyField(f: Field)
      modifies this
      ensures State() == Dispatch(old(State()), f)
      ensures Leaked == old(Leaked)
    {
      match f.typeCode
      case 1 =>
        if f.fieldCode == 2 {
          transactionType := MapTransactionType(AsI16(f.data));
        }
      case 2 =>
        if f.fieldCode == 2 {
          flags := AsI32(f.data);
        } else if f.fieldCode == 3 {
          sourceTag := AsI32(f.data);
        } else if f.fieldCode == 4 {
          sequence := AsI32(f.data);
        } else if f.fieldCode == 14 {
          payment := payment.(destinationTag := AsI32(f.data));
        } else if f.fieldCode == 27 {
          lastLedgerSequence := AsI32(f.data);
        }
      case 5 =>
        if f.fieldCode == 9 {
          accountTxnID := AsHash(f.data);
        } else if f.fieldCode == 17 {
          payment := payment.(invoiceId := AsHash(f.data));
        }
      case 6 =>
        if f.fieldCode == 8 {
          fee := AsAmount(f.data);
        } else if f.fieldCode == 1 {
          payment := payment.(amount := AsAmount(f.data));
        } else if f.fieldCode == 9 {
          payment := payment.(sendMax := AsAmount(f.data));
        } else if f.fieldCode == 10 {
          payment := payment.(deliverMin := AsAmount(f.data));
        }
      case 7 =>
        if f.fieldCode == 3 {
          publicKey := AsKey(f.data);
        } else if f.fieldCode == 4 {
          signature := AsSignature(f.data);
        }
      case 8 =>
        if f.fieldCode == 1 {
          sourceAddress := AsAddress(f.data);
        } else if f.fieldCode == 3 {
          payment := payment.(targetAddress := AsAddress(f.data));
        }
      case _ =>
    }
  }

  /** createTransactionHash: hashes "TXN\0" followed by the artifact's bytes
      and stores the first 32 bytes of the digest in the artifact. */
  method CreateTransactionHash(x: Collaborators, signedBytes: Artifact) returns (sealed: Artifact)
    requires x.Valid() && signedBytes.Valid()
    ensures sealed == signedBytes.(txHash := TxHash(x, signedBytes.Bytes()))
  {
    var n := signedBytes.size;
    var bytesToHash := new byte[n + 4];
    bytesToHash[0], bytesToHash[1], bytesToHash[2], bytesToHash[3] := 'T' as int, 'X' as int, 'N' as int, 0;
    for i := 0 to n
      invariant bytesToHash[..4] == TxnPrefix
      invariant forall j :: 0 <= j < i ==> bytesToHash[4 + j] == signedBytes.buffer[j]
    {
      bytesToHash[4 + i] := signedBytes.buffer[i];
    }
    assert bytesToHash[..] == TxnPrefix + signedBytes.Bytes();
    var md64 := x.sha512(bytesToHash[..]);
    sealed := signedBytes.(txHash := md64[..32]);
  }

  /** rippleTransactionCreateFromBytes: decodes the bytes into fields, fills a
      zero-filled record from them, then hands over the memo list of each
      memo field in turn, so the last one is kept and every earlier list is
      dropped unreleased. The record is returned whatever the decoder
      produced. */
  method CreateFromBytes(x: Collaborators, bytes: seq<byte>) returns (t: Transaction)
    ensures fresh(t) && t.State() == FromBytes(x, bytes)
    ensures t.Leaked == MemoLeaks(MemosDropped(None, x.deserialize(bytes)))
  {
    var fields := x.deserialize(bytes);
    t := new Transaction.Zeroed();
    t.GetFieldInfo(fields);
    DecodeKeepsArtifactAndMemos(ZeroState, fields);
    ghost var decoded := t.State();
    for i := 0 to |fields|
      invariant t.State() == decoded.(memos := MemosAfter(None, fields[..i]))
      invariant t.Leaked == MemoLeaks(MemosDropped(None, fields[..i]))
    {
      assert fields[..i + 1][..i] == fields[..i];
      if fields[i].typeCode == 15 && fields[i].fieldCode == 9 {
        if t.memos.Some? {
          t.Leaked := t.Leaked + [MemoListBuffer(t.memos.value)];
        }
        t.memos := fields[i].memos;
      }
    }
    assert fields[..|fields|] == fields;
  }

  /** A freshly created record has no artifact and a zero hash, encodes to the
      eight prefix fields only, with its fee and amount as drop counts and
      the canonical-signature flag. */
  lemma FreshRecordEncoding(source: Address, target: Address, amount: u64, fee: u64)
    ensures var s := FreshState(source, target, amount, fee);
      var fs := EncodeFields(s, None);
      && HashOf(s) == ZeroHash
      && |fs| == 8
      && fs[3].data == I64(fee) && fs[5].data == I64(amount)
      && fs[7].data == I32(FullyCanonicalSig)
      && AmountRaw(s, FeeAmount) == XrpAmount(fee)
      && AmountRaw(s, AmountOfPayment) == XrpAmount(amount)
  {
  }
}

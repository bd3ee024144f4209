/**
 * Value types of the XRP payment transaction record: fixed-width integers,
 * opaque addresses and keys, amounts, the generic tagged field used as the
 * interchange form of the binary codec, and the abstract value of a record.
 */
module RippleTypes {

  type byte = x: int | 0 <= x < 0x100
  type u16 = x: int | 0 <= x < 0x1_0000
  type u32 = x: int | 0 <= x < 0x1_0000_0000
  type u64 = x: int | 0 <= x < 0x1_0000_0000_0000_0000

  datatype Option<T> = None | Some(value: T)

  /** A 32-byte value (transaction hash, invoice id, account txn id). */
  type Hash32 = s: seq<byte> | |s| == 32 witness Zeros(32)

  function Zeros(n: nat): (z: seq<byte>)
    ensures |z| == n && forall i :: 0 <= i < n ==> z[i] == 0
  {
    seq(n, _ => 0)
  }

  const ZeroHash: Hash32 := Zeros(32)

  /** Opaque 20-byte account identifier; copied by value. */
  datatype Address = Address(bytes: seq<byte>)

  const ZeroAddress := Address(Zeros(20))

  /** Opaque key (public or private); its contents are not modelled.
      ZeroKey stands for the zero-filled key of a freshly allocated record. */
  datatype Key = Key(bytes: seq<byte>)

  const ZeroKey := Key([])

  /** Signature bytes; the record's sig_length is the length of `bytes`. */
  datatype Signature = Signature(bytes: seq<byte>)

  const NoSignature := Signature([])

  /** An amount: `currencyType` 0 is XRP, counted in drops by the 64-bit view
      `u64Amount` of the amount union; `issued` stands for the currency code,
      issuer and decimal value of an issued currency, which are opaque here. */
  datatype Amount = Amount(currencyType: int, u64Amount: u64, issued: seq<byte>)

  function XrpAmount(drops: u64): (a: Amount)
    ensures a.currencyType == 0 && a.u64Amount == drops
  {
    Amount(0, drops, [])
  }

  /** The zero-filled amount is an XRP amount of 0 drops. */
  const ZeroAmount := XrpAmount(0)

  /** The value returned for an amount selector the record does not know. */
  const InvalidAmount := Amount(-1, 0, [])

  /** Opaque list of memo entries, owned by the record that holds it. */
  datatype Memo = Memo(bytes: seq<byte>)
  datatype MemoList = MemoList(entries: seq<Memo>)

  datatype TxType = Payment | Unknown

  /** The 16-bit wire code of a transaction type. Payment is 0 on the wire;
      the unknown type's enumerator is -1, i.e. 0xFFFF as a 16-bit field. */
  function TxTypeCode(t: TxType): u16
  {
    match t
    case Payment => 0
    case Unknown => 0xFFFF
  }

  /** mapTransactionType: wire code 0 is a payment, everything else unknown. */
  function MapTransactionType(code: u16): (t: TxType)
    ensures t == Payment <==> code == 0
  {
    if code == 0 then Payment else Unknown
  }

  lemma TxTypeCodeRoundTrip(t: TxType)
    ensures MapTransactionType(TxTypeCode(t)) == t
  {
  }

  /** The value part of a generic field: one variant per wire type code. */
  datatype FieldData =
    | I16(v16: u16)                // type 1
    | I32(v32: u32)                // type 2
    | I64(v64: u64)                // type 6 written as drops by the encoder side
    | HashData(hash: Hash32)       // type 5
    | AmountData(amount: Amount)   // type 6 as produced by the decoder
    | PublicKeyData(key: Key)      // type 7, field 3
    | SignatureData(sig: Signature) // type 7, field 4
    | AddressData(address: Address) // type 8

  /** A generic tagged field. `memos` is the field record's separate memo-list
      member, meaningful for the memo array field (15, 9). */
  datatype Field = Field(typeCode: int, fieldCode: int, data: FieldData, memos: Option<MemoList>)

  function Tag(f: Field): (int, int)
  {
    (f.typeCode, f.fieldCode)
  }

  // Reads of the field-data union. A read of a variant other than the one
  // stored reinterprets bytes in the source; that reinterpretation is not
  // modelled, and such a read yields the zero value of the requested kind.

  function AsI16(d: FieldData): u16 { if d.I16? then d.v16 else 0 }
  function AsI32(d: FieldData): u32 { if d.I32? then d.v32 else 0 }
  function AsHash(d: FieldData): Hash32 { if d.HashData? then d.hash else ZeroHash }
  function AsAmount(d: FieldData): Amount { if d.AmountData? then d.amount else ZeroAmount }
  function AsKey(d: FieldData): Key { if d.PublicKeyData? then d.key else ZeroKey }
  function AsSignature(d: FieldData): Signature { if d.SignatureData? then d.sig else NoSignature }
  function AsAddress(d: FieldData): Address { if d.AddressData? then d.address else ZeroAddress }

  /** The payment-specific part of a record, embedded by value. */
  datatype PaymentRecord = PaymentRecord(
    targetAddress: Address,
    amount: Amount,
    destinationTag: u32,
    invoiceId: Hash32,
    sendMax: Amount,
    deliverMin: Amount)

  /** The serialized artifact: the encoder's buffer (allocated with a safety
      margin), the number of bytes the encoder actually wrote, and the
      transaction hash derived from those bytes. */
  datatype Artifact = Artifact(size: nat, buffer: seq<byte>, txHash: Hash32)
  {
    predicate Valid() { size <= |buffer| }

    /** The encoded transaction: the first `size` bytes of the buffer. */
    function Bytes(): seq<byte>
      requires Valid()
    {
      buffer[..size]
    }
  }

  /** The abstract value of a transaction record: one component per field of
      the record. */
  datatype TxState = TxState(
    sourceAddress: Address,
    transactionType: TxType,
    fee: Amount,
    sequence: u32,
    flags: u32,
    lastLedgerSequence: u32,
    publicKey: Key,
    payment: PaymentRecord,
    signedBytes: Option<Artifact>,
    signature: Signature,
    accountTxnID: Hash32,
    sourceTag: u32,
    memos: Option<MemoList>)

  /** A zero-filled record, as the allocator hands it out. The zero
      transaction-type enumerator is the payment type (wire code 0). */
  const ZeroState := TxState(
    ZeroAddress, Payment, ZeroAmount, 0, 0, 0, ZeroKey,
    PaymentRecord(ZeroAddress, ZeroAmount, 0, ZeroHash, ZeroAmount, ZeroAmount),
    None, NoSignature, ZeroHash, 0, None)

  /** The fully-canonical-signature flag (tfFullyCanonicalSig). */
  const FullyCanonicalSig: u32 := 0x8000_0000

  /** rippleTransactionCreate: a native-currency payment with the
      canonical-signature flag, no last ledger sequence and no artifact;
      everything else is zero-filled. */
  function FreshState(source: Address, target: Address, amount: u64, fee: u64): (s: TxState)
  {
    ZeroState.(
      fee := XrpAmount(fee),
      sourceAddress := source,
      transactionType := Payment,
      flags := FullyCanonicalSig,
      lastLedgerSequence := 0,
      payment := ZeroState.payment.(targetAddress := target, amount := XrpAmount(amount)),
      signedBytes := None)
  }

  /** rippleTransactionGetHash on a record value: the artifact's hash, or
      all zero bytes when the record has not been signed. */
  function HashOf(s: TxState): (h: Hash32)
    ensures s.signedBytes.None? ==> forall i :: 0 <= i < 32 ==> h[i] == 0
    ensures s.signedBytes.Some? ==> h == s.signedBytes.value.txHash
  {
    if s.signedBytes.Some? then s.signedBytes.value.txHash else ZeroHash
  }

  /** The amount selectors of rippleTransactionGetAmountRaw; `OtherAmountType`
      stands for any value outside the enumeration. */
  datatype AmountType = AmountOfPayment | SendMax | DeliverMin | FeeAmount | OtherAmountType(code: int)

  function AmountRaw(s: TxState, which: AmountType): (a: Amount)
  {
    match which
    case AmountOfPayment => s.payment.amount
    case SendMax => s.payment.sendMax
    case DeliverMin => s.payment.deliverMin
    case FeeAmount => s.fee
    case OtherAmountType(_) => InvalidAmount
  }
}

/**
 * The collaborators the transaction core calls but does not define: the
 * canonical field encoder and decoder, the signature primitive and SHA-512.
 * They are passed in as function values; only the interface contract each
 * of them keeps is assumed.
 */
module External {
  import opened RippleTypes

  datatype Collaborators = Collaborators(
    /** rippleSerialize(fields, n, NULL, 0): the required buffer size; a value
        <= 0 means the fields cannot be encoded. */
    probe: seq<Field> -> int,
    /** rippleSerialize(fields, n, buffer, capacity): the bytes written into the
        buffer; their count is the returned length, so [] is the 0 that
        reports an encoding fault. */
    write: (seq<Field>, nat) -> seq<byte>,
    /** rippleDeserialize: the ordered fields decoded from raw bytes (none
        when the bytes are malformed). */
    deserialize: seq<byte> -> seq<Field>,
    /** signBytes(privateKey, bytes, size). */
    signBytes: (Key, seq<byte>) -> Signature,
    /** BRSHA512: a 64-byte digest. */
    sha512: seq<byte> -> seq<byte>)
  {
    /** The interface contract: the encoder never writes past the capacity it
        is given, and the digest is 64 bytes long. */
    ghost predicate Valid()
    {
      && (forall fs, cap :: |write(fs, cap)| <= cap)
      && (forall m :: |sha512(m)| == 64)
    }
  }
}

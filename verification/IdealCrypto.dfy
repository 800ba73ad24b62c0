/**
 Digests and authenticated encryption as ideal objects.

 A digest is its own preimage, so two equal digests come from equal bytes: SHA-256 is taken as
 collision free. A sealed ciphertext remembers what was sealed; opening it with anything but the
 same generation, nonce and associated data fails, which is the interface of section 2 of RFC 5116.
 `Foreign` stands for file contents that no encryption call produced.
 */
module IdealCrypto {
  import opened Options

  newtype Byte = x: int | 0 <= x < 256

  type Bytes = seq<Byte>
  type Nonce = nat

  datatype Digest = Digest(preimage: Bytes)

  datatype Ciphertext<+A> =
    | Sealed(generation: string, nonce: Nonce, aad: A, plaintext: Bytes)
    | Foreign(bytes: Bytes)

  // The stored-ciphertext digest, domain separated from the plaintext digest.
  datatype StoredDigest<+A> = StoredDigest(content: Ciphertext<A>)

  const TAG_BYTES: nat := 16

  function StoredLength<A>(c: Ciphertext<A>): nat {
    match c
    case Sealed(_, _, _, plaintext) => |plaintext| + TAG_BYTES
    case Foreign(bytes) => |bytes|
  }

  function Open<A(==)>(generation: string, nonce: Nonce, aad: A, c: Ciphertext<A>): Option<Bytes> {
    if c.Sealed? && c.generation == generation && c.nonce == nonce && c.aad == aad
    then Some(c.plaintext) else None
  }
}

/** The security helpers of the vault (app.py lines 95-117), kept opaque.

    The session's cryptography is a `Suite` of three function values fixed
    when the session starts: a one-way passkey digest (SHA-256 rendered as
    hex in the source) and a symmetric cipher under the session's key
    (Fernet in the source). Nothing about their internals is modelled; the
    only fact the rest of the model relies on is that decrypting what was
    encrypted gives the plaintext back, stated as the predicate RoundTrips
    and required wherever it is used.
 */
module Crypto {

  datatype Option<T> = None | Some(value: T)

  /** The session's hash function and cipher. `decrypt` answers None where
      the source's decrypt_data catches an exception. */
  datatype Suite = Suite(
    hash: string -> string,
    encrypt: string -> string,
    decrypt: string -> Option<string>)

  /** The one property of the cipher the vault depends on. */
  ghost predicate RoundTrips(c: Suite)
  {
    forall d :: c.decrypt(c.encrypt(d)) == Some(d)
  }

  /** hash_passkey: the stored digest of a passkey. */
  function HashPasskey(c: Suite, passkey: string): string
  {
    c.hash(passkey)
  }

  /** encrypt_data: the ciphertext kept for a piece of data; under a cipher
      that round-trips, it decrypts back to the data. */
  function EncryptData(c: Suite, data: string): (t: string)
    ensures RoundTrips(c) ==> DecryptData(c, t) == Some(data)
  {
    c.encrypt(data)
  }

  /** decrypt_data: the plaintext, or None when decryption fails. Under a
      cipher that round-trips, it never fails on a ciphertext the session
      made, and gives back the data that was encrypted. */
  function DecryptData(c: Suite, encrypted: string): (r: Option<string>)
    ensures RoundTrips(c) ==> forall d :: c.encrypt(d) == encrypted ==> r == Some(d)
  {
    c.decrypt(encrypted)
  }

  /** verify_passkey: a candidate passkey is accepted exactly when its
      digest equals the stored digest. */
  function VerifyPasskey(c: Suite, storedHash: string, provided: string): bool
  {
    HashPasskey(c, provided) == storedHash
  }

  /** The passkey a digest was made from is always accepted against it. The
      second clause only unfolds the definition of VerifyPasskey: a
      different passkey is accepted exactly when the two digests collide. */
  lemma VerifyOwnPasskey(c: Suite, passkey: string, candidate: string)
    ensures VerifyPasskey(c, HashPasskey(c, passkey), passkey)
    ensures VerifyPasskey(c, HashPasskey(c, passkey), candidate)
            <==> HashPasskey(c, candidate) == HashPasskey(c, passkey)
  {
  }
}

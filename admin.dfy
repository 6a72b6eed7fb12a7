/** The admin listing's redacted view of one record (app.py lines 304-311):
    the id, the timestamp, and short previews of the passkey digest and the
    ciphertext, each cut to a fixed number of characters and followed by
    "...".
 */
module Admin {
  import opened Vault

  /** Characters of the passkey digest the listing shows. */
  const HashPreviewLength: nat := 10
  /** Characters of the ciphertext the listing shows. */
  const CipherPreviewLength: nat := 20

  datatype Summary = Summary(id: string, timestamp: real, passkeyPreview: string, ciphertextPreview: string)

  /** Python's `value[:n] + "..."`: at most n leading characters of the
      value, then an ellipsis. */
  function Preview(value: string, n: nat): (r: string)
    ensures |r| == (if |value| < n then |value| else n) + 3
    ensures r[..|r| - 3] <= value
    ensures r[|r| - 3..] == "..."
  {
    value[..if |value| < n then |value| else n] + "..."
  }

  /** The listing never shows more of a value than its first n characters:
      a preview reveals the whole value only when the value is that short. */
  lemma PreviewHidesRest(value: string, n: nat)
    ensures Preview(value, n)[..|Preview(value, n)| - 3] == value <==> |value| <= n
  {
  }

  /** One entry of the listing: the id and timestamp as stored, at most 10
      leading characters of the digest and at most 20 of the ciphertext,
      each followed by "...". */
  function Summarize(id: string, rec: Record): (s: Summary)
    ensures s.id == id && s.timestamp == rec.timestamp
    ensures |s.passkeyPreview| == (if |rec.passkey| < HashPreviewLength then |rec.passkey| else HashPreviewLength) + 3
    ensures s.passkeyPreview[..|s.passkeyPreview| - 3] <= rec.passkey
    ensures |s.ciphertextPreview|
            == (if |rec.encryptedText| < CipherPreviewLength then |rec.encryptedText| else CipherPreviewLength) + 3
    ensures s.ciphertextPreview[..|s.ciphertextPreview| - 3] <= rec.encryptedText
    ensures s.passkeyPreview[|s.passkeyPreview| - 3..] == s.ciphertextPreview[|s.ciphertextPreview| - 3..] == "..."
  {
    Summary(id, rec.timestamp,
            Preview(rec.passkey, HashPreviewLength),
            Preview(rec.encryptedText, CipherPreviewLength))
  }
}

/** The API-key vault: AES under a key derived once by SHA-256 from a secret.
    The empty string is the "no key" sentinel and never reaches the cipher. */
module Encryption {
  import opened Wrappers

  /** The cipher primitives, uninterpreted. `aesEncrypt(text, key)` and
      `aesDecrypt(ciphertext, key)` give their output or the message they threw
      with; `aesDecrypt` includes the UTF-8 decoding of the plaintext. */
  datatype Cipher = Cipher(
    secret: string,
    sha256: string -> string,
    aesEncrypt: (string, string) -> Result<string>,
    aesDecrypt: (string, string) -> Result<string>)

  /** The constant key: the SHA-256 digest of the configured secret. */
  function Key(c: Cipher): string {
    c.sha256(c.secret)
  }

  const EncryptFailed := "Failed to encrypt API key"
  const DecryptFailed := "Failed to decrypt - invalid key or corrupted data"

  /** `encryptApiKey`: "" stays "", otherwise the AES ciphertext; any cipher
      failure is replaced by one fixed message. */
  function EncryptApiKey(c: Cipher, text: string): (r: Result<string>)
    ensures text == [] ==> r == Ok([])
    ensures text != [] ==> (r.Ok? <==> c.aesEncrypt(text, Key(c)).Ok?)
    ensures text != [] && r.Ok? ==> r.value == c.aesEncrypt(text, Key(c)).value
    ensures r.Err? ==> r.msg == EncryptFailed
  {
    if |text| == 0 then Ok([])
    else
      match c.aesEncrypt(text, Key(c))
      case Ok(ciphertext) => Ok(ciphertext)
      case Err(_) => Err(EncryptFailed)
  }

  /** `decryptApiKey`: "" stays "", an empty plaintext is an error, any cipher
      error is passed on unchanged. */
  function DecryptApiKey(c: Cipher, ciphertext: string): (r: Result<string>)
    ensures ciphertext == [] ==> r == Ok([])
    ensures ciphertext != [] && r.Ok? ==> r.value != [] && c.aesDecrypt(ciphertext, Key(c)) == r
    ensures ciphertext != [] && c.aesDecrypt(ciphertext, Key(c)) == Ok([]) ==> r == Err(DecryptFailed)
    ensures c.aesDecrypt(ciphertext, Key(c)).Err? && ciphertext != [] ==> r == c.aesDecrypt(ciphertext, Key(c))
  {
    if |ciphertext| == 0 then Ok([])
    else
      match c.aesDecrypt(ciphertext, Key(c))
      case Err(e) => Err(e)
      case Ok(plainText) => if plainText == [] then Err(DecryptFailed) else Ok(plainText)
  }

  /** What AES promises: encryption of a non-empty text succeeds with a non-empty
      ciphertext that decrypts back to the text. */
  ghost predicate SoundCipher(c: Cipher) {
    forall text :: text != [] ==>
      var e := c.aesEncrypt(text, Key(c));
      e.Ok? && e.value != [] && c.aesDecrypt(e.value, Key(c)) == Ok(text)
  }

  /** Over a sound cipher the vault round-trips every key, the empty one included. */
  lemma RoundTrip(c: Cipher, text: string)
    requires SoundCipher(c)
    ensures EncryptApiKey(c, text).Ok?
    ensures DecryptApiKey(c, EncryptApiKey(c, text).value) == Ok(text)
  {
    if text != [] {
      var e := c.aesEncrypt(text, Key(c));
      assert e.Ok? && e.value != [] && c.aesDecrypt(e.value, Key(c)) == Ok(text);
    }
  }
}

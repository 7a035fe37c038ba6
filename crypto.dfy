/**
 * The two cryptographic primitives the store relies on, Fernet symmetric
 * encryption and bcrypt passphrase hashing, as abstract values. Only the
 * behaviour the store depends on is modelled: decryption under the same key
 * inverts encryption and fails under another key; verification accepts the
 * passphrase that was hashed, and bcrypt reads no more than the first 72
 * characters of a passphrase, so verification is not exact beyond that prefix.
 */
module Crypto {
  import opened Wrappers

  /** Identifies the Fernet key the deployment was configured with. */
  type Key = nat

  /** A Fernet token: the key it was sealed under, its random IV and the payload. */
  datatype Token = FernetToken(key: Key, iv: nat, payload: string)

  /** `fernet.encrypt(plaintext.encode())`; `iv` stands for the random IV. */
  function Encrypt(key: Key, iv: nat, plaintext: string): Token {
    FernetToken(key, iv, plaintext)
  }

  /** `fernet.decrypt(token).decode()`; None stands for the InvalidToken error. */
  function Decrypt(key: Key, token: Token): Option<string> {
    if token.key == key then Some(token.payload) else None
  }

  lemma DecryptEncrypt(key: Key, iv: nat, plaintext: string, other: Key)
    ensures Decrypt(key, Encrypt(key, iv, plaintext)) == Some(plaintext)
    ensures other != key ==> Decrypt(other, Encrypt(key, iv, plaintext)) == None
  {
  }

  /** The number of leading passphrase characters bcrypt reads. */
  const BcryptKeyLength: nat := 72

  /**
   * A stored passphrase hash: a bcrypt hash with its salt, or any other
   * string, which bcrypt cannot parse.
   */
  datatype PasswordHash = BcryptHash(salt: nat, digest: string) | Unparseable(text: string)

  /** The part of a passphrase that bcrypt reads. */
  function BcryptInput(passphrase: string): string {
    if |passphrase| <= BcryptKeyLength then passphrase else passphrase[..BcryptKeyLength]
  }

  /** `hash_passphrase`; `salt` stands for the result of `bcrypt.gensalt()`. */
  function HashPassphrase(passphrase: string, salt: nat): PasswordHash {
    BcryptHash(salt, BcryptInput(passphrase))
  }

  /** `verify_passphrase`: an unparseable hash makes bcrypt raise, which is read as False. */
  function VerifyPassphrase(passphrase: string, hashed: PasswordHash): bool {
    match hashed
    case BcryptHash(_, digest) => BcryptInput(passphrase) == digest
    case Unparseable(_) => false
  }

  /** Verification accepts exactly the passphrases that agree with the hashed one on bcrypt's prefix. */
  lemma VerifyHash(p: string, q: string, salt: nat)
    ensures VerifyPassphrase(p, HashPassphrase(p, salt))
    ensures VerifyPassphrase(q, HashPassphrase(p, salt)) <==> BcryptInput(q) == BcryptInput(p)
    ensures |p| <= BcryptKeyLength && |q| <= BcryptKeyLength ==>
      (VerifyPassphrase(q, HashPassphrase(p, salt)) <==> q == p)
  {
  }

  /** Two passphrases that share their first 72 characters verify against each other's hash. */
  lemma BcryptPrefixCollision(p: string, q: string, salt: nat)
    requires |p| >= BcryptKeyLength && |q| >= BcryptKeyLength
    requires p[..BcryptKeyLength] == q[..BcryptKeyLength]
    ensures VerifyPassphrase(q, HashPassphrase(p, salt))
  {
  }
}

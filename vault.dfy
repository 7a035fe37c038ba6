/**
 * The secret store behind the three HTTP handlers: creation, the metadata
 * probe and unlock. Each secret is a Redis hash under a fresh id with an
 * expiry; the store is a map from id to entry, and time is an explicit
 * clock reading `now` (in seconds) passed to each operation.
 */
module Vault {
  import opened Wrappers
  import opened Models
  import opened Crypto
  import opened SecretPayload

  type SecretId = string

  /** The passphrase used when none is supplied. */
  const DefaultPassword: string := "uvu"

  /** The default of the `one_time_fallback_ttl_seconds` setting: one week. */
  const DefaultOneTimeFallbackTtl: int := 604800

  /** `passphrase or DEFAULT_PASSWORD`: a missing or empty passphrase becomes the default. */
  function EffectivePassphrase(p: Option<string>): string {
    if p.None? || p.value == "" then DefaultPassword else p.value
  }

  /** `get_default_passphrase_hash`: a fresh hash of the default passphrase. */
  function DefaultPassphraseHash(salt: nat): (h: PasswordHash)
    ensures VerifyPassphrase(EffectivePassphrase(None), h)
    ensures VerifyPassphrase(EffectivePassphrase(Some("")), h)
  {
    HashPassphrase(DefaultPassword, salt)
  }

  /** The deployment settings the handlers read. */
  datatype Settings = Settings(fernetKey: Key, oneTimeFallbackTtl: int)

  /**
   * One Redis key: the three hash fields the handlers read, each possibly
   * missing, and the clock reading at which the key expires. Redis keeps no
   * empty hash, so an entry whose three fields are all missing stands for a
   * key that holds only other fields.
   */
  datatype Entry = Entry(fields: Fields, expiresAt: int)

  /**
   * `hgetall(id)` at time `now`: the fields of a live key, or None where
   * Redis answers with an empty hash (no such key, or an expired key).
   */
  function Stored(records: map<SecretId, Entry>, id: SecretId, now: int): Option<Fields> {
    if id in records && now < records[id].expiresAt
    then Some(records[id].fields)
    else None
  }

  /** `not stored_hash`: the hash field is missing or empty. */
  predicate HashMissing(h: Option<PasswordHash>) {
    h.None? || h.value == Unparseable("")
  }

  /** The TTL given to a new secret: the requested one for a time-based secret, the fallback otherwise. */
  function TtlFor(req: CreateRequest, fallback: int): int
    requires req.expiration == TimeBased ==> req.ttlSeconds.Some?
  {
    if req.expiration == TimeBased then req.ttlSeconds.value else fallback
  }

  /** The response of the creation handler; sanitisation failure is the 400 reply. */
  datatype CreateOutcome =
    | Created(id: SecretId, expiresIn: int, expiration: ExpirationMethod)
    | SanitizationRejected

  /** The response of the metadata probe (`exists` is always true in a found reply). */
  datatype MetadataOutcome =
    | SecretMetadata(requiresPassphrase: bool, expiration: ExpirationMethod)
    | MetadataNotFound

  /** The response of the unlock handler; CorruptRecord is the unhandled decryption error. */
  datatype UnlockOutcome =
    | Unlocked(secret: string)
    | NotFound
    | InvalidPassphrase
    | CorruptRecord

  /**
   * `create_secret` as a transition: sanitise, choose the TTL, substitute the
   * default passphrase, hash it, encrypt the sanitised text, and write the
   * payload under the fresh id with its expiry. `id`, `iv` and `salt` stand
   * for the random uuid4, Fernet IV and bcrypt salt.
   */
  function CreateStep(
    records: map<SecretId, Entry>, settings: Settings, sanitize: string -> Option<string>,
    req: CreateRequest, id: SecretId, iv: nat, salt: nat, now: int): (CreateOutcome, map<SecretId, Entry>)
    requires ValidCreateRequest(req)
  {
    match sanitize(req.secret)
    case None => (SanitizationRejected, records)
    case Some(clean) =>
      var oneTime := req.expiration == OneTime;
      var ttl := TtlFor(req, settings.oneTimeFallbackTtl);
      var hash := HashPassphrase(EffectivePassphrase(req.passphrase), salt);
      var token := Encrypt(settings.fernetKey, iv, clean);
      (Created(id, ttl, req.expiration), records[id := Entry(BuildSecretPayload(token, hash, oneTime), now + ttl)])
  }

  /**
   * `unlock_secret` as a transition: existence, then the passphrase, then the
   * presence of the ciphertext, then decryption; a one-time secret is deleted
   * once disclosed.
   */
  function UnlockStep(
    records: map<SecretId, Entry>, key: Key, id: SecretId, passphrase: Option<string>, now: int)
    : (UnlockOutcome, map<SecretId, Entry>)
  {
    match Stored(records, id, now)
    case None => (NotFound, records)
    case Some(f) =>
      if HashMissing(f.passphraseHash) || !VerifyPassphrase(EffectivePassphrase(passphrase), f.passphraseHash.value)
      then (InvalidPassphrase, records)
      else if f.ciphertext.None? then (NotFound, records)
      else
        match Decrypt(key, f.ciphertext.value)
        case None => (CorruptRecord, records)
        case Some(plaintext) => (Unlocked(plaintext), if OneTimeFlag(f) then records - {id} else records)
  }

  /** Fields as the creation handler writes them under the deployment's key. */
  predicate WellFormedFields(f: Fields, key: Key) {
    && f.ciphertext.Some? && Decrypt(key, f.ciphertext.value).Some?
    && f.passphraseHash.Some? && f.passphraseHash.value.BcryptHash?
    && f.oneTime.Some? && (f.oneTime.value == "true" || f.oneTime.value == "false")
  }

  /** Every entry of the store was written by the creation handler. */
  predicate WellFormedStore(records: map<SecretId, Entry>, key: Key) {
    forall id :: id in records ==> WellFormedFields(records[id].fields, key)
  }

  /**
   * The Redis-backed store with its settings and its sanitiser. `clock` is
   * the time of the latest request; requests arrive in time order, so an
   * expired key never comes back.
   */
  class SecretStore {
    var records: map<SecretId, Entry>
    var clock: int
    const settings: Settings
    /** `sanitize_plaintext`: the cleaned text, or None for a SanitizationError. */
    const sanitize: string -> Option<string>

    ghost predicate Valid()
      reads this
    {
      WellFormedStore(records, settings.fernetKey)
    }

    constructor (settings: Settings, sanitize: string -> Option<string>, start: int)
      ensures this.settings == settings && this.sanitize == sanitize
      ensures records == map[] && clock == start && Valid()
    {
      this.settings := settings;
      this.sanitize := sanitize;
      records := map[];
      clock := start;
    }

    /** `create_secret`; the uuid4 id is fresh. */
    method CreateSecret(req: CreateRequest, id: SecretId, iv: nat, salt: nat, now: int) returns (out: CreateOutcome)
      requires ValidCreateRequest(req)
      requires id !in records
      requires clock <= now
      modifies this
      ensures (out, records) == CreateStep(old(records), settings, sanitize, req, id, iv, salt, now)
      ensures clock == now
      ensures old(Valid()) ==> Valid()
    {
      clock := now;
      var sanitized := sanitize(req.secret);
      if sanitized.None? {
        return SanitizationRejected;
      }
      var oneTime := req.expiration == OneTime;
      var ttl := if req.expiration == TimeBased then req.ttlSeconds.value else settings.oneTimeFallbackTtl;
      var passphrase := EffectivePassphrase(req.passphrase);
      var passphraseHash := HashPassphrase(passphrase, salt);
      var ciphertext := Encrypt(settings.fernetKey, iv, sanitized.value);
      var fields := BuildSecretPayload(ciphertext, passphraseHash, oneTime);
      records := records[id := Entry(fields, now + ttl)];
      out := Created(id, ttl, req.expiration);
      OneTimeRoundTrip(ciphertext, passphraseHash, oneTime);
    }

    /** `get_secret_metadata`: a probe that leaves the records alone. */
    method GetSecretMetadata(id: SecretId, now: int) returns (out: MetadataOutcome)
      requires clock <= now
      modifies this
      ensures records == old(records) && clock == now
      ensures out == MetadataNotFound <==> Stored(records, id, now).None?
      ensures out.SecretMetadata? ==> out.requiresPassphrase
      ensures out.SecretMetadata? ==>
        (out.expiration == OneTime <==> OneTimeFlag(Stored(records, id, now).value))
    {
      clock := now;
      var stored := Stored(records, id, now);
      if stored.None? {
        return MetadataNotFound;
      }
      var oneTime := OneTimeFlag(stored.value);
      out := SecretMetadata(true, if oneTime then OneTime else TimeBased);
    }

    /** `unlock_secret` */
    method UnlockSecret(id: SecretId, req: UnlockRequest, now: int) returns (out: UnlockOutcome)
      requires ValidUnlockRequest(req)
      requires clock <= now
      modifies this
      ensures (out, records) == UnlockStep(old(records), settings.fernetKey, id, req.passphrase, now)
      ensures clock == now
      ensures old(Valid()) ==> Valid()
    {
      clock := now;
      var stored := Stored(records, id, now);
      if stored.None? {
        return NotFound;
      }
      var fields := stored.value;
      var provided := EffectivePassphrase(req.passphrase);
      var storedHash := fields.passphraseHash;
      if HashMissing(storedHash) || !VerifyPassphrase(provided, storedHash.value) {
        return InvalidPassphrase;
      }
      var ciphertext := fields.ciphertext;
      if ciphertext.None? {
        return NotFound;
      }
      var plaintext := Decrypt(settings.fernetKey, ciphertext.value);
      if plaintext.None? {
        return CorruptRecord;
      }
      if OneTimeFlag(fields) {
        records := records - {id};
      }
      out := Unlocked(plaintext.value);
    }
  }
}

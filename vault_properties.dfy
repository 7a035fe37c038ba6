/**
 * Properties of the store's lifecycle: what creation writes, the round trip
 * through unlock, burn-on-first-view, repeatable time-based unlock, failed
 * attempts leaving the store alone, the order of the unlock checks, expiry,
 * and the default passphrase.
 */
module VaultProperties {
  import opened Wrappers
  import opened Models
  import opened Crypto
  import opened SecretPayload
  import Strings
  import opened Vault

  /**
   * Creation either leaves the store alone (sanitisation failed) or adds
   * exactly one entry under the fresh id: its flag reads one-time exactly for
   * a one-time request, it expires after the requested TTL or the one-time
   * fallback, its ciphertext decrypts to the sanitised text and its hash
   * accepts the effective passphrase.
   */
  lemma CreateStoresOneRecord(
    records: map<SecretId, Entry>, settings: Settings, sanitize: string -> Option<string>,
    req: CreateRequest, id: SecretId, iv: nat, salt: nat, now: int)
    requires ValidCreateRequest(req)
    requires id !in records
    ensures var (out, after) := CreateStep(records, settings, sanitize, req, id, iv, salt, now);
      && (sanitize(req.secret).None? ==> out == SanitizationRejected && after == records)
      && (sanitize(req.secret).Some? ==>
            && out.Created? && out.id == id && out.expiration == req.expiration
            && after.Keys == records.Keys + {id}
            && (forall k :: k in records ==> after[k] == records[k])
            && (OneTimeFlag(after[id].fields) <==> req.expiration == OneTime)
            && out.expiresIn == (if req.expiration == TimeBased then req.ttlSeconds.value else settings.oneTimeFallbackTtl)
            && after[id].expiresAt == now + out.expiresIn
            && WellFormedFields(after[id].fields, settings.fernetKey)
            && Decrypt(settings.fernetKey, after[id].fields.ciphertext.value) == Some(sanitize(req.secret).value)
            && VerifyPassphrase(EffectivePassphrase(req.passphrase), after[id].fields.passphraseHash.value))
  {
    if sanitize(req.secret).Some? {
      var clean := sanitize(req.secret).value;
      var token := Encrypt(settings.fernetKey, iv, clean);
      var hash := HashPassphrase(EffectivePassphrase(req.passphrase), salt);
      OneTimeRoundTrip(token, hash, req.expiration == OneTime);
    }
  }

  /**
   * A new secret is live from its creation until `ttl` seconds later and
   * absent from then on.
   */
  lemma TtlBoundary(
    records: map<SecretId, Entry>, settings: Settings, sanitize: string -> Option<string>,
    req: CreateRequest, id: SecretId, iv: nat, salt: nat, now: int, t: int)
    requires ValidCreateRequest(req)
    requires sanitize(req.secret).Some?
    requires now <= t
    ensures var ttl := TtlFor(req, settings.oneTimeFallbackTtl);
      Stored(CreateStep(records, settings, sanitize, req, id, iv, salt, now).1, id, t).Some? <==> t < now + ttl
  {
  }

  /**
   * With the default setting, a one-time secret that is never unlocked is
   * reported to live 604800 seconds (one week) and is gone exactly then.
   */
  lemma OneTimeDefaultLifetime(
    records: map<SecretId, Entry>, key: Key, sanitize: string -> Option<string>,
    req: CreateRequest, id: SecretId, iv: nat, salt: nat, now: int, t: int)
    requires ValidCreateRequest(req) && req.expiration == OneTime
    requires sanitize(req.secret).Some?
    requires now <= t
    ensures var (out, after) := CreateStep(records, Settings(key, DefaultOneTimeFallbackTtl), sanitize, req, id, iv, salt, now);
      && out == Created(id, 604800, OneTime)
      && (Stored(after, id, t).Some? <==> t < now + 604800)
  {
    TtlBoundary(records, Settings(key, DefaultOneTimeFallbackTtl), sanitize, req, id, iv, salt, now, t);
  }

  /** Once a key has expired it stays absent at every later time. */
  lemma ExpiryIsPermanent(records: map<SecretId, Entry>, id: SecretId, t1: int, t2: int)
    requires id in records && records[id].expiresAt <= t1 <= t2
    ensures Stored(records, id, t1) == None && Stored(records, id, t2) == None
  {
  }

  /**
   * Unlocking an id that is absent (never created, deleted or expired) is
   * not-found and changes nothing.
   */
  lemma AbsentIsNotFound(records: map<SecretId, Entry>, key: Key, id: SecretId, p: Option<string>, now: int)
    requires Stored(records, id, now).None?
    ensures UnlockStep(records, key, id, p, now) == (NotFound, records)
  {
  }

  /**
   * A live key that holds none of the three fields the handlers read (only
   * other fields) is found: unlock refuses it as invalid-passphrase, since it
   * has no hash, and its flag reads time-based.
   */
  lemma KeyWithoutKnownFields(records: map<SecretId, Entry>, key: Key, id: SecretId, p: Option<string>, now: int)
    requires id in records && now < records[id].expiresAt
    requires records[id].fields == Fields(None, None, None)
    ensures Stored(records, id, now) == Some(Fields(None, None, None))
    ensures !OneTimeFlag(Stored(records, id, now).value)
    ensures UnlockStep(records, key, id, p, now) == (InvalidPassphrase, records)
  {
    assert |Strings.Lower("false")| == 5;
  }

  /** Every unlock that does not disclose leaves the store exactly as it was. */
  lemma FailedUnlockChangesNothing(records: map<SecretId, Entry>, key: Key, id: SecretId, p: Option<string>, now: int)
    ensures !UnlockStep(records, key, id, p, now).0.Unlocked? ==> UnlockStep(records, key, id, p, now).1 == records
  {
  }

  /**
   * A wrong passphrase, or a record without a usable hash, is refused with
   * invalid-passphrase, and a later attempt sees the untouched record: a
   * correct passphrase after a wrong one gets the same answer as if the
   * wrong attempt had never happened.
   */
  lemma WrongPassphraseKeepsSecret(
    records: map<SecretId, Entry>, key: Key, id: SecretId, wrong: Option<string>, right: Option<string>, t1: int, t2: int)
    requires Stored(records, id, t1).Some?
    requires var f := Stored(records, id, t1).value;
      HashMissing(f.passphraseHash) || !VerifyPassphrase(EffectivePassphrase(wrong), f.passphraseHash.value)
    ensures UnlockStep(records, key, id, wrong, t1) == (InvalidPassphrase, records)
    ensures UnlockStep(UnlockStep(records, key, id, wrong, t1).1, key, id, right, t2) == UnlockStep(records, key, id, right, t2)
  {
  }

  /**
   * The order of the checks: a missing or empty hash is invalid-passphrase
   * whatever is supplied; a missing ciphertext is reported as not-found only
   * once the passphrase has verified; decryption is tried last.
   */
  lemma UnlockCheckOrder(records: map<SecretId, Entry>, key: Key, id: SecretId, p: Option<string>, now: int)
    requires Stored(records, id, now).Some?
    ensures var f := Stored(records, id, now).value;
      var verified := !HashMissing(f.passphraseHash) && VerifyPassphrase(EffectivePassphrase(p), f.passphraseHash.value);
      var out := UnlockStep(records, key, id, p, now).0;
      && (HashMissing(f.passphraseHash) ==> out == InvalidPassphrase)
      && (!verified <==> out == InvalidPassphrase)
      && (verified && f.ciphertext.None? ==> out == NotFound)
      && (out == CorruptRecord <==> verified && f.ciphertext.Some? && Decrypt(key, f.ciphertext.value).None?)
  {
  }

  /**
   * A successful unlock of a one-time secret removes its id: the next unlock
   * and the next probe, at any time and with any passphrase, find nothing,
   * and every other id is as it was.
   */
  lemma OneTimeBurnsOnView(
    records: map<SecretId, Entry>, key: Key, id: SecretId, p: Option<string>, now: int,
    q: Option<string>, later: int, other: SecretId)
    requires UnlockStep(records, key, id, p, now).0.Unlocked?
    requires OneTimeFlag(Stored(records, id, now).value)
    ensures var after := UnlockStep(records, key, id, p, now).1;
      && Stored(after, id, later).None?
      && UnlockStep(after, key, id, q, later) == (NotFound, after)
      && (other != id ==> Stored(after, other, later) == Stored(records, other, later))
  {
  }

  /**
   * A successful unlock of a time-based secret leaves the store unchanged, so
   * the same request succeeds again with the same text.
   */
  lemma TimeBasedUnlockRepeats(records: map<SecretId, Entry>, key: Key, id: SecretId, p: Option<string>, now: int)
    requires UnlockStep(records, key, id, p, now).0.Unlocked?
    requires !OneTimeFlag(Stored(records, id, now).value)
    ensures UnlockStep(records, key, id, p, now).1 == records
    ensures UnlockStep(UnlockStep(records, key, id, p, now).1, key, id, p, now) == UnlockStep(records, key, id, p, now)
  {
  }

  /**
   * The round trip: a secret created with passphrase `p0` is disclosed,
   * before it expires, to any passphrase that bcrypt accepts for `p0`, and
   * what is returned is the sanitised text, not the submitted one. A
   * one-time secret then leaves the store as it was before creation; a
   * time-based one leaves it unchanged.
   */
  lemma CreateThenUnlock(
    records: map<SecretId, Entry>, settings: Settings, sanitize: string -> Option<string>,
    req: CreateRequest, id: SecretId, iv: nat, salt: nat, now: int, p: Option<string>, t: int)
    requires ValidCreateRequest(req)
    requires id !in records
    requires sanitize(req.secret).Some?
    requires now <= t < now + TtlFor(req, settings.oneTimeFallbackTtl)
    requires BcryptInput(EffectivePassphrase(p)) == BcryptInput(EffectivePassphrase(req.passphrase))
    ensures var created := CreateStep(records, settings, sanitize, req, id, iv, salt, now).1;
      var (out, after) := UnlockStep(created, settings.fernetKey, id, p, t);
      && out == Unlocked(sanitize(req.secret).value)
      && (req.expiration == OneTime ==> after == records)
      && (req.expiration == TimeBased ==> after == created)
  {
    var created := CreateStep(records, settings, sanitize, req, id, iv, salt, now).1;
    CreateStoresOneRecord(records, settings, sanitize, req, id, iv, salt, now);
    TtlBoundary(records, settings, sanitize, req, id, iv, salt, now, t);
    VerifyHash(EffectivePassphrase(req.passphrase), EffectivePassphrase(p), salt);
    if req.expiration == OneTime {
      assert created - {id} == records;
    }
  }

  /**
   * The default passphrase: a missing, empty or literal "uvu" passphrase are
   * the same passphrase, so a secret created without one unlocks with any of
   * the three.
   */
  lemma DefaultPassphraseUnlocks(
    records: map<SecretId, Entry>, settings: Settings, sanitize: string -> Option<string>,
    req: CreateRequest, id: SecretId, iv: nat, salt: nat, now: int, p: Option<string>, t: int)
    requires ValidCreateRequest(req) && (req.passphrase == None || req.passphrase == Some(""))
    requires id !in records
    requires sanitize(req.secret).Some?
    requires now <= t < now + TtlFor(req, settings.oneTimeFallbackTtl)
    requires p == None || p == Some("") || p == Some(DefaultPassword)
    ensures var created := CreateStep(records, settings, sanitize, req, id, iv, salt, now).1;
      UnlockStep(created, settings.fernetKey, id, p, t).0 == Unlocked(sanitize(req.secret).value)
  {
    assert EffectivePassphrase(p) == EffectivePassphrase(req.passphrase) == DefaultPassword;
    CreateThenUnlock(records, settings, sanitize, req, id, iv, salt, now, p, t);
  }

  /**
   * In a store written only by the creation handler, unlock never reports a
   * corrupt record, reports not-found only for an absent id, and discloses
   * exactly when bcrypt accepts the passphrase; creation and unlock keep the
   * store in that shape.
   */
  lemma WellFormedUnlock(records: map<SecretId, Entry>, key: Key, id: SecretId, p: Option<string>, now: int)
    requires WellFormedStore(records, key)
    ensures var out := UnlockStep(records, key, id, p, now).0;
      && out != CorruptRecord
      && (out == NotFound <==> Stored(records, id, now).None?)
      && (out.Unlocked? <==>
            Stored(records, id, now).Some? &&
            VerifyPassphrase(EffectivePassphrase(p), Stored(records, id, now).value.passphraseHash.value))
    ensures WellFormedStore(UnlockStep(records, key, id, p, now).1, key)
  {
    if Stored(records, id, now).Some? {
      var f := records[id].fields;
      assert WellFormedFields(f, key);
      assert !HashMissing(f.passphraseHash);
    }
  }

  lemma WellFormedCreate(
    records: map<SecretId, Entry>, settings: Settings, sanitize: string -> Option<string>,
    req: CreateRequest, id: SecretId, iv: nat, salt: nat, now: int)
    requires ValidCreateRequest(req)
    requires WellFormedStore(records, settings.fernetKey)
    ensures WellFormedStore(CreateStep(records, settings, sanitize, req, id, iv, salt, now).1, settings.fernetKey)
  {
  }

  /**
   * The worked scenario: "hunter2" stored as a one-time secret without a
   * passphrase under id "abc123" is disclosed once to an unlock without a
   * passphrase; the immediate second unlock and the probe find nothing.
   */
  method OneTimeScenario(settings: Settings, now: int)
    returns (created: CreateOutcome, before: MetadataOutcome, first: UnlockOutcome, second: UnlockOutcome, after: MetadataOutcome)
    requires settings.oneTimeFallbackTtl > 0
    ensures created == Created("abc123", settings.oneTimeFallbackTtl, OneTime)
    ensures before == SecretMetadata(true, OneTime)
    ensures first == Unlocked("hunter2")
    ensures second == NotFound
    ensures after == MetadataNotFound
  {
    var store := new SecretStore(settings, s => Some(s), now);
    var req := CreateRequest("hunter2", None, OneTime, None);
    created := store.CreateSecret(req, "abc123", 0, 0, now);
    OneTimeRoundTrip(Encrypt(settings.fernetKey, 0, "hunter2"), HashPassphrase(DefaultPassword, 0), true);
    before := store.GetSecretMetadata("abc123", now);
    first := store.UnlockSecret("abc123", UnlockRequest(None), now);
    second := store.UnlockSecret("abc123", UnlockRequest(None), now);
    after := store.GetSecretMetadata("abc123", now);
  }
}

/**
 * Request validation: the expiration-method enumeration, the length bounds
 * on the request fields and the time-to-live rule, applied before any
 * handler of the store runs.
 */
module Models {
  import opened Wrappers

  /** The two expiration policies, burn-on-first-view and time-to-live. */
  datatype ExpirationMethod = TimeBased | OneTime

  /** The string each policy has on the wire. */
  function WireName(m: ExpirationMethod): string {
    match m
    case TimeBased => "time"
    case OneTime => "one_time"
  }

  /** Decoding of the wire string; any other string is refused. */
  function ParseExpirationMethod(s: string): Option<ExpirationMethod> {
    if s == "time" then Some(TimeBased)
    else if s == "one_time" then Some(OneTime)
    else None
  }

  /** The enumeration has exactly two members, and decoding inverts WireName. */
  lemma ExpirationMethodWire(s: string, m: ExpirationMethod)
    ensures ParseExpirationMethod(WireName(m)) == Some(m)
    ensures ParseExpirationMethod(s).Some? <==> s == "time" || s == "one_time"
    ensures ParseExpirationMethod(s) == Some(m) <==> s == WireName(m)
  {
  }

  const SecretMinLength: nat := 1
  const SecretMaxLength: nat := 4096
  const PassphraseMaxLength: nat := 256

  datatype CreateRequest = CreateRequest(
    secret: string,
    passphrase: Option<string>,
    expiration: ExpirationMethod,
    ttlSeconds: Option<int>)

  datatype UnlockRequest = UnlockRequest(passphrase: Option<string>)

  /** The optional passphrase field: absent, or at most 256 characters. */
  predicate PassphraseFieldValid(p: Option<string>) {
    p.None? || |p.value| <= PassphraseMaxLength
  }

  /** The declared field bounds of a creation request. */
  predicate CreateFieldsValid(req: CreateRequest) {
    && SecretMinLength <= |req.secret| <= SecretMaxLength
    && PassphraseFieldValid(req.passphrase)
  }

  datatype TtlError = TtlMissing | TtlNotPositive

  /** The model-level TTL rule: None when accepted, otherwise the error raised. */
  function ValidateTtl(req: CreateRequest): Option<TtlError> {
    if req.expiration == TimeBased then
      if req.ttlSeconds.None? then Some(TtlMissing)
      else if req.ttlSeconds.value <= 0 then Some(TtlNotPositive)
      else None
    else None
  }

  /** The creation requests that reach the creation handler. */
  predicate ValidCreateRequest(req: CreateRequest) {
    CreateFieldsValid(req) && ValidateTtl(req).None?
  }

  /** The unlock requests that reach the unlock handler. */
  predicate ValidUnlockRequest(req: UnlockRequest) {
    PassphraseFieldValid(req.passphrase)
  }

  /**
   * A time-based request needs a TTL of at least one second, the missing
   * case is reported as such, and a one-time request passes whatever its TTL.
   */
  lemma TtlRule(req: CreateRequest)
    ensures ValidateTtl(req).None? <==>
      req.expiration == OneTime || (req.ttlSeconds.Some? && req.ttlSeconds.value >= 1)
    ensures ValidateTtl(req) == Some(TtlMissing) <==> req.expiration == TimeBased && req.ttlSeconds.None?
    ensures ValidateTtl(req) == Some(TtlNotPositive) <==>
      req.expiration == TimeBased && req.ttlSeconds.Some? && req.ttlSeconds.value <= 0
  {
  }

  /** The bounds on a creation request, stated field by field. */
  lemma CreateBounds(req: CreateRequest)
    ensures ValidCreateRequest(req) ==> 1 <= |req.secret| <= 4096
    ensures ValidCreateRequest(req) ==> req.passphrase.None? || |req.passphrase.value| <= 256
    ensures req.expiration == OneTime ==> (ValidCreateRequest(req) <==> CreateFieldsValid(req))
  {
  }
}

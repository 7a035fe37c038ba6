# Secret Vault core, modelled in Dafny

This project models the core of Secret Vault, a service for sharing secrets that expire. A caller posts a secret and gets an id back. Another caller later unlocks that id, optionally with a passphrase, and gets the text back. A one-time secret is deleted once it is disclosed. A time-based secret stays until its time-to-live runs out. The project covers three parts of the backend.

- **The secret store** (`vault.dfy`, properties in `vault_properties.dfy`). It models the three handlers `create_secret`, `get_secret_metadata` and `unlock_secret`.
  - The Redis database is a `map` from id to entry. An entry is the stored hash fields plus the clock reading at which the key expires.
  - The handlers are the methods of the class `Vault.SecretStore`. Each method that writes is proved equal to a pure transition function (`CreateStep`, `UnlockStep`), and the lifecycle properties are lemmas about those functions.
  - Time is an explicit `now` argument. A key is gone once `now` reaches its expiry. The store keeps the time of the latest request in `clock`, and requests arrive in time order, so an expired key never comes back.
  - An entry holds the three hash fields the handlers read, each possibly missing. Redis keeps no empty hash, so an entry with all three missing is a key that holds only other fields: the handlers find it, as `hgetall` does.
  - Fernet encryption and bcrypt hashing are abstract values (`crypto.dfy`). Decryption under the right key inverts encryption and fails under any other key. Verification accepts exactly the passphrases that share bcrypt's 72-character prefix with the hashed one.
- **The legacy pattern password generator** (`pattern_generator.dfy`, properties in `pattern_properties.dfy`).
  - A pattern is a sequence of tokens. Each token is one class character from `w W n s r S a`, optionally followed by `*` and a decimal count. Each token expands into that many words or characters of its class.
  - `GeneratePasswordFromPattern` is the source's `while` loop with its inner digit scan. It is proved equal to the function `PatternPassword`: parse into instructions, then expand each instruction's items in order.
  - Randomness is a parameter `draw: nat -> nat`. The k-th call of `secrets.choice(pool)` returns `pool[draw(k) % |pool|]`. Every property holds for every `draw`.
- **Request validation and the stored payload** (`models.dfy`, `secret_payload.dfy`). These cover the expiration-method enumeration, the field bounds, the TTL rule, and how the `one_time` flag is written and read back.

`strings.dfy` holds ASCII versions of the Python string built-ins the core uses. `wrappers.dfy` holds `Option` and `Result`.

## Behaviour of the code worth knowing

- **TTL.** Any `ttl_seconds >= 1` is accepted; there is no larger minimum. `Models.TtlRule` states the rule as `>= 1`.
- **Unlock is two calls.** Unlock reads the hash with `hgetall` and removes it later with a separate `delete`. The model is sequential, so it claims nothing about concurrent unlocks.
- **No sweep, no other generator modes.** There is no expiry sweep; expiry is left to Redis. The only password generator is the pattern one; there is no random-character or word-passphrase mode.
- **No consumed flag.** A one-time secret is simply deleted once disclosed.
- **Passphrase check.** The passphrase comparison is `bcrypt.checkpw`, which the model abstracts (see "Left out").

## Model

| member | source | states |
|---|---|---|
| Models.ExpirationMethodWire | backend/app/models.py:8-10 | The enumeration has exactly the two wire names `"time"` and `"one_time"`, and decoding inverts the wire name. |
| Models.TtlRule | backend/app/models.py:22-29 | A time-based request is accepted exactly when `ttl_seconds` is present and at least 1. A missing TTL and a non-positive TTL are each reported with their own error. A one-time request passes whatever its TTL. |
| Models.CreateBounds | backend/app/models.py:13-15 | A valid creation request has a secret of 1 to 4096 characters and no passphrase or one of at most 256. For a one-time request, validity is just the field bounds. |
| Crypto.DecryptEncrypt | backend/app/utils.py:59-60 | Decrypting a token under the key it was encrypted with returns the plaintext. Under any other key it fails. |
| Crypto.VerifyHash | backend/app/utils.py:63-71 | The hashed passphrase verifies. A candidate verifies exactly when it agrees with the hashed passphrase on bcrypt's 72-character prefix. Below 72 characters, verification is exact. |
| Crypto.BcryptPrefixCollision | backend/app/utils.py:63-71 | Two passphrases that share their first 72 characters verify against each other's hash. |
| SecretPayload.OneTimeRoundTrip | backend/app/utils.py:74-83 | `build_secret_payload` writes the flag as `"true"` or `"false"`, and `parse_one_time` on the stored field returns the original boolean. |
| SecretPayload.ParseOneTimeExactly | backend/app/utils.py:82-83 | `parse_one_time` is true exactly for the four-letter strings spelling "true" in any mix of cases. |
| SecretPayload.ParseOneTimeExamples | backend/app/utils.py:82-83 | "true", "TRUE" and "True" parse as true. "false", "1", "" and "yes" parse as false. |
| Strings.DecimalValuePositive | backend/app/utils.py:106-108 | A digit string has a positive `int` value exactly when some digit is not `0`, so `r*0` and `r*00` are both non-positive. |
| PatternGenerator.GeneratorForDomain | backend/app/utils.py:116-128 | The token table has an entry exactly for the seven class characters `wWnsrSa`. |
| PatternGenerator.TokenChar | backend/app/utils.py:117-125 | Each generator has a class character, and the token table maps that character back to the same generator. |
| PatternGenerator.ItemInPool | backend/app/utils.py:131-162 | Each `_generate_*` helper yields one item per draw. `w` yields a word of the word list and `W` a capitalised one. `n`, `r`, `S` and `a` yield one character of their own character set. `s` always yields `-`. |
| PatternGenerator.ItemsAt | backend/app/utils.py:131-162 | A token with count c yields exactly c items. Item i uses draw `start + i`, except for separators, which use no draw. |
| PatternGenerator.RunGenerator | backend/app/utils.py:131-162 | The counted loop of a `_generate_*` helper returns c items, each the choice its draw number gives. It reports how many draws it consumed: none for `s`, c otherwise. |
| PatternGenerator.DigitsEnd | backend/app/utils.py:101-103 | The inner scan stops at the first non-digit or at the end, and everything it passes over is a digit. |
| PatternGenerator.ExpandAppend | backend/app/utils.py:94-113 | The expansion of two instruction lists in sequence is the first's items followed by the second's. The second continues from the draws the first consumed. |
| PatternGenerator.GeneratePasswordFromPattern | backend/app/utils.py:86-113 | The scanning loop returns exactly `PatternPassword`. That is the first parse error (empty pattern, missing or non-positive multiplier, unsupported token), or else the join of every token's items in pattern order. |
| PatternProperties.ParsedShape | backend/app/utils.py:94-128 | A pattern that parses holds only class characters, `*` and digits. Each token starts with a class character, and every count is at least 1. |
| PatternProperties.AcceptedPatternAlphabet | backend/app/utils.py:86-128 | An accepted pattern is non-empty, starts with a class character and contains nothing else but `*` and digits. |
| PatternProperties.MissingPartsRejected | backend/app/utils.py:87-105 | The empty pattern is rejected as empty. `r*`, `r*x` and `x*` are rejected for a missing multiplier. |
| PatternProperties.ZeroMultiplierRejected | backend/app/utils.py:104-108 | `r*0` and `r*00` are rejected for a non-positive multiplier. |
| PatternProperties.StrayCharactersRejected | backend/app/utils.py:110-127 | `r16` is rejected at `1`, `*r` at `*`, and `L` at `L`, each as an unsupported token. |
| PatternProperties.UnsupportedTokenAt | backend/app/utils.py:110-127 | Any non-class character in token position that is not followed by `*` is rejected as that unsupported token, whatever follows. |
| PatternProperties.DefaultFormPatternRejected | frontend/src/components/PatternGenerator.jsx:7 | The web form's default pattern `WsLaWLLrrSa` is rejected as an unsupported token at its first `L`. |
| PatternProperties.MultiplierCheckedBeforeToken | backend/app/utils.py:98-110 | A `*` without digits is a missing multiplier, whatever the token character, because the multiplier is checked before the token is looked up. |
| PatternProperties.SingleTokenWithCount | backend/app/utils.py:98-128 | For `t*digits`: an all-zero count is rejected as non-positive. Otherwise a non-class `t` is an unsupported token, and a class `t` parses to one instruction with that count. |
| PatternProperties.ParseCountedToken | backend/app/utils.py:99-110 | A token followed by `*` and a digit run with a positive value is read with that value as its count, and the scan goes on right after the digits. |
| PatternProperties.ParseToken | backend/app/utils.py:94-110 | One step of the scan: a written-out token followed by the end or by another class character is read back with its own generator and count, and the scan continues right after it. |
| PatternProperties.ParseRendered | backend/app/utils.py:94-128 | Every sequence of tokens with counts of at least 1, written out as class characters with `*` and the decimal count (bare for count 1), is accepted and parses back to exactly that sequence. |
| PatternProperties.RenderedPatternPassword | backend/app/utils.py:86-113 | The password of such a written-out pattern is the expansion of exactly its tokens, in order. |
| PatternProperties.RenderedPatternLength | backend/app/utils.py:94-113 | Without `w` and `W`, such a pattern yields a password as long as the sum of the counts written in it. |
| PatternProperties.TwoTokenExample | backend/app/utils.py:94-128 | `r*2n` parses to two tokens, 2 random characters then 1 digit, and yields 3 characters. |
| PatternProperties.OutputInPatternOrder | backend/app/utils.py:94-113 | The password is the join of the per-token outputs in pattern order. |
| PatternProperties.TokenOutputAt | backend/app/utils.py:94-113 | Token i's output is its own items, drawn after every draw the tokens before it consumed. |
| PatternProperties.CharacterToken | backend/app/utils.py:136-162 | A character token with count c contributes exactly c characters of its set: digits; letters and digits; `!@#$%^&*()_+[]{}?`; or, for `s`, c dashes. |
| PatternProperties.WordToken | backend/app/utils.py:119-133 | `w` with count c contributes c words of the word list. `W` contributes c such words capitalised. |
| PatternProperties.LengthWithoutWords | backend/app/utils.py:94-113 | Without `w` and `W` tokens, the password's length is the sum of the counts. |
| PatternProperties.SingleCharacterTokenPassword | backend/app/utils.py:86-113 | A pattern that parses to a single character token yields exactly count characters of that token's set. |
| PatternProperties.SeparatorExample | backend/app/utils.py:142-144 | `s*3` yields `---` for every random source. |
| PatternProperties.RandomCharsExample | backend/app/utils.py:147-150 | `r*16` yields 16 characters, each an ASCII letter or digit, for every random source. |
| Vault.DefaultPassphraseHash | backend/app/main.py:45-46 | The hash of the default passphrase accepts an unlock with no passphrase and one with the empty passphrase. |
| Vault.SecretStore.CreateSecret | backend/app/main.py:74-94 | The outcome and the new store are those of `CreateStep`: sanitise, pick the TTL, substitute `"uvu"`, hash, encrypt, write under the fresh id with its expiry. It keeps the store well formed. The clock advances to `now`. |
| Vault.SecretStore.GetSecretMetadata | backend/app/main.py:97-104 | The probe is not-found exactly when the key is absent or expired, and otherwise always says a passphrase is required. It reports one-time exactly when the stored flag parses as true (a missing flag reads as time-based). It leaves the records unchanged and advances the clock to `now`. |
| Vault.SecretStore.UnlockSecret | backend/app/main.py:107-129 | The outcome and the new store are those of `UnlockStep`: existence, then passphrase, then ciphertext, then decryption, and a one-time key is deleted once disclosed. It keeps the store well formed. The clock advances to `now`. |
| VaultProperties.CreateStoresOneRecord | backend/app/main.py:76-94 | Creation adds exactly one entry under the fresh id, or leaves the store unchanged if sanitisation fails. The entry's flag reads one-time exactly for a one-time request, and its TTL is the requested one or the fallback. Its ciphertext decrypts to the sanitised text, and its hash accepts the effective passphrase. |
| VaultProperties.TtlBoundary | backend/app/main.py:79-92 | A new secret is live from creation until exactly `ttl` seconds later, and absent from then on. |
| VaultProperties.OneTimeDefaultLifetime | backend/app/main.py:79-92 | With the default fallback setting, a one-time secret is created with an expiry of 604800 seconds and is live exactly until then. |
| VaultProperties.ExpiryIsPermanent | backend/app/main.py:92 | An expired key stays absent at every later time. |
| VaultProperties.AbsentIsNotFound | backend/app/main.py:109-111 | Unlocking an absent, deleted or expired id is not-found and changes nothing. |
| VaultProperties.KeyWithoutKnownFields | backend/app/main.py:99-117 | A live key holding none of the three fields is found: its flag reads time-based, and unlock refuses it as invalid-passphrase because it has no hash, leaving the store unchanged. |
| VaultProperties.FailedUnlockChangesNothing | backend/app/main.py:107-129 | Every unlock that does not disclose leaves the store unchanged. |
| VaultProperties.WrongPassphraseKeepsSecret | backend/app/main.py:113-117 | A wrong passphrase, or a missing or empty hash, gets invalid-passphrase. A later unlock gets the same answer as if the failed attempt had not happened. |
| VaultProperties.UnlockCheckOrder | backend/app/main.py:109-123 | A missing hash is always invalid-passphrase. Invalid-passphrase is reported exactly when verification fails. A missing ciphertext is not-found only after the passphrase verified. Corrupt is reported only when decryption fails after both checks pass. |
| VaultProperties.OneTimeBurnsOnView | backend/app/main.py:125-127 | After a one-time secret is disclosed, its id is absent at every later time and the next unlock is not-found. Every other id is unchanged. |
| VaultProperties.TimeBasedUnlockRepeats | backend/app/main.py:125-129 | Disclosing a time-based secret leaves the store unchanged, so the same unlock succeeds again with the same text. |
| VaultProperties.CreateThenUnlock | backend/app/main.py:76-129 | Before expiry, a secret is disclosed to any passphrase bcrypt accepts for the one it was created with, and the text returned is the sanitised one. A one-time disclosure restores the store to its state before creation. A time-based one leaves it unchanged. |
| VaultProperties.DefaultPassphraseUnlocks | backend/app/main.py:85-113 | A secret created with no passphrase, or an empty one, unlocks with none, with `""` and with `"uvu"`. |
| VaultProperties.WellFormedUnlock | backend/app/main.py:107-129 | In a store that only the creation handler wrote, unlock never reports corrupt. It is not-found exactly for an absent id, and it discloses exactly when bcrypt accepts the passphrase. The store stays well formed. |
| VaultProperties.WellFormedCreate | backend/app/main.py:74-94 | Creation keeps a well-formed store well formed. |
| VaultProperties.OneTimeScenario | backend/app/main.py:74-129 | `hunter2`, created one-time without a passphrase, shows as one-time and is disclosed once. The second unlock and the next probe find nothing. |

## Left out

- **HTTP wiring.** Left out: the FastAPI app, the Redis and Fernet clients built from settings, the security-header and CORS middleware, the shutdown hook, and the `generate_password` route (`main.py:30-71`, `132-135`). Outcomes are datatypes, not status codes.
  - `CorruptRecord` stands for the unhandled `InvalidToken` that a failed decryption raises.
- **Rejected requests.** The 422 response for a request that fails validation is not modelled as an outcome. Validity is a precondition of the handlers, because pydantic rejects the request before any handler runs.
- **`sanitize_plaintext`** depends on bleach, `html.escape` and regular expressions. It is a function-typed constant of the store that either returns the cleaned text or fails.
- **Fernet and bcrypt** are abstract values rather than the real algorithms. Not modelled:
  - the token format and its timestamp;
  - salt generation and the cost factor;
  - the timing-safe comparison.
- **Text encoding.** Characters stand for bytes, which matches UTF-8 only for ASCII text. So bcrypt's 72-byte limit is stated on 72 characters.
- **bcrypt versions that reject long passphrases.** Some bcrypt releases raise an error for a passphrase over 72 bytes instead of truncating it. The model assumes truncation.
- **Randomness and ids.** `secrets.choice` is the `draw` parameter, and the uuid4 id, the Fernet IV and the bcrypt salt are parameters. The distribution and entropy of these values are not modelled. The fresh id is a precondition (`id !in records`).
- **Redis.** Eviction, persistence and network failures are not modelled. Expiry is the clock comparison `now >= expiresAt`.
- Vault.SecretStore.CreateSecret: does not model Redis refusing an expiry it cannot represent (a TTL whose deadline in milliseconds overflows 64 bits, such as `ttl_seconds = 10**16`). The request validation lets such a TTL through. The source has then already written the key with `hset`, so the key stays with no expiry and the request fails with a server error. The model instead reports `Created` with expiry `now + ttl`.
- PatternGenerator.GeneratePasswordFromPattern: does not model the limit some CPython releases put on `int()`, which refuses strings of more than 4300 digits. A multiplier longer than that makes the source raise `ValueError`, for example `s*` followed by 4300 zeros and a `1`. The model reads a multiplier of any length; for that example it yields `-`.
- **Concurrency.** The model is sequential. In the code, the read and the later delete in unlock are not atomic, so the model makes no at-most-once claim under concurrent unlocks.
- **Non-ASCII strings.** Not modelled:
  - `str.isdigit` and `int()` on non-ASCII digits;
  - `str.lower` and `str.capitalize` outside ASCII letters.
  
  The model accepts only ASCII `0-9` as multiplier digits.
- **`config.py`.** Only the fallback TTL default, 604800, is modelled, as `Vault.DefaultOneTimeFallbackTtl`, used by `VaultProperties.OneTimeDefaultLifetime`. Elsewhere the fallback is a field of `Settings`. The other settings are wiring.
- **The rest of the frontend.** The only frontend code modelled is the default pattern of the generator form.

/**
 * The Redis hash that stores one secret, and the serialisation of its
 * `one_time` flag.
 */
module SecretPayload {
  import opened Wrappers
  import opened Strings
  import opened Crypto

  /**
   * The fields of a stored Redis hash. Each may be missing from a hash that
   * was not written by the creation handler.
   */
  datatype Fields = Fields(
    ciphertext: Option<Token>,
    passphraseHash: Option<PasswordHash>,
    oneTime: Option<string>)

  /** `str(b)` */
  function BoolText(b: bool): string {
    if b then "True" else "False"
  }

  /** `build_secret_payload`: the flag is written as `str(one_time).lower()`. */
  function BuildSecretPayload(ciphertext: Token, passphraseHash: PasswordHash, oneTime: bool): Fields {
    Fields(Some(ciphertext), Some(passphraseHash), Some(Lower(BoolText(oneTime))))
  }

  /** `parse_one_time`: case-insensitive comparison with "true". */
  function ParseOneTime(value: string): bool {
    Lower(value) == "true"
  }

  /** `parse_one_time(stored.get("one_time", "false"))`: a missing flag reads as false. */
  function OneTimeFlag(f: Fields): bool {
    ParseOneTime(f.oneTime.GetOr("false"))
  }

  /** The flag written by build_secret_payload is read back unchanged. */
  lemma {:induction false} OneTimeRoundTrip(c: Token, h: PasswordHash, b: bool)
    ensures BuildSecretPayload(c, h, b).oneTime == Some(if b then "true" else "false")
    ensures OneTimeFlag(BuildSecretPayload(c, h, b)) == b
  {
    if b {
      assert Lower("True") == "true";
    } else {
      assert Lower("False") == "false";
      assert Lower("false") == "false";
    }
  }

  /**
   * Exactly the four-letter strings spelling "true" in any mix of cases parse
   * as true; every other string parses as false.
   */
  lemma {:induction false} ParseOneTimeExactly(value: string)
    ensures ParseOneTime(value) <==>
      |value| == 4 && value[0] in "tT" && value[1] in "rR" && value[2] in "uU" && value[3] in "eE"
  {
    if |value| == 4 {
      var l := Lower(value);
      assert l[0] == LowerChar(value[0]) && l[1] == LowerChar(value[1]);
      assert l[2] == LowerChar(value[2]) && l[3] == LowerChar(value[3]);
      if value[0] in "tT" && value[1] in "rR" && value[2] in "uU" && value[3] in "eE" {
        assert l == "true";
      }
    }
  }

  lemma ParseOneTimeExamples()
    ensures ParseOneTime("true") && ParseOneTime("TRUE") && ParseOneTime("True")
    ensures !ParseOneTime("false") && !ParseOneTime("1") && !ParseOneTime("") && !ParseOneTime("yes")
  {
    ParseOneTimeExactly("true");
    ParseOneTimeExactly("TRUE");
    ParseOneTimeExactly("True");
    ParseOneTimeExactly("false");
    ParseOneTimeExactly("1");
    ParseOneTimeExactly("");
    ParseOneTimeExactly("yes");
  }
}

/**
 * `UsernameGenerator.generate`: the username of a social account, derived
 * from the provider's name and the account's id at that provider. The
 * SHA-256 hex digest is a parameter: any function from text to 64 hex
 * characters.
 */
module Usernames {
  import opened Common
  import opened Text

  const MaxLength: nat := 30
  const HashLength: nat := 20

  predicate IsHexDigit(c: char) {
    ('0' <= c <= '9') || ('a' <= c <= 'f')
  }

  /** What `HexFormat.formatHex` makes of a SHA-256 digest: 64 lower-case hex digits. */
  type HexDigest = s: string | |s| == 64 && forall i :: 0 <= i < |s| ==> IsHexDigit(s[i])
    witness seq(64, i => '0')

  /** `shortHash`: the first 20 hex digits of the digest of `input`. */
  function ShortHash(input: string, sha256Hex: string -> HexDigest): (r: string)
    ensures |r| == HashLength && r == sha256Hex(input)[..HashLength]
  {
    sha256Hex(input)[..HashLength]
  }

  /** The username before the length cut: the lower-cased provider, '_', and the short hash of "provider:providerId". */
  function Untruncated(provider: string, providerId: string, sha256Hex: string -> HexDigest): string {
    var prefix := ToLower(provider);
    prefix + "_" + ShortHash(prefix + ":" + providerId, sha256Hex)
  }

  /**
   * `generate`: a missing or blank provider, then a missing or blank
   * provider id, is an `IllegalArgumentException`; otherwise the untruncated
   * name, cut to 30 characters.
   */
  function Generate(provider: Option<string>, providerId: Option<string>, sha256Hex: string -> HexDigest)
    : (r: Result<string>)
    ensures !HasText(provider) ==> r == Err(IllegalArgument("provider is required"))
    ensures HasText(provider) && !HasText(providerId) ==> r == Err(IllegalArgument("providerId is required"))
    ensures r.Ok? <==> HasText(provider) && HasText(providerId)
    ensures r.Ok? ==>
      var full := Untruncated(provider.value, providerId.value, sha256Hex);
      |r.value| <= MaxLength && StartsWith(full, r.value)
      && (|full| <= MaxLength ==> r.value == full)
      && (|full| > MaxLength ==> |r.value| == MaxLength)
  {
    if provider.None? || IsBlank(provider.value) then Err(IllegalArgument("provider is required"))
    else if providerId.None? || IsBlank(providerId.value) then Err(IllegalArgument("providerId is required"))
    else
      var username := Untruncated(provider.value, providerId.value, sha256Hex);
      Ok(if |username| > MaxLength then username[..MaxLength] else username)
  }

  /**
   * A provider name of at most 9 characters leaves room for the whole hash:
   * the username is the lower-cased provider, '_' and all 20 hash digits,
   * so two accounts of that provider get the same username exactly when
   * their short hashes agree.
   */
  lemma ShortProviderKeepsHash(provider: string, id1: string, id2: string, sha256Hex: string -> HexDigest)
    requires HasText(Some(provider)) && HasText(Some(id1)) && HasText(Some(id2))
    requires |provider| <= MaxLength - HashLength - 1
    ensures var prefix := ToLower(provider);
      Generate(Some(provider), Some(id1), sha256Hex)
        == Ok(prefix + "_" + ShortHash(prefix + ":" + id1, sha256Hex))
    ensures Generate(Some(provider), Some(id1), sha256Hex) == Generate(Some(provider), Some(id2), sha256Hex)
      <==> ShortHash(ToLower(provider) + ":" + id1, sha256Hex) == ShortHash(ToLower(provider) + ":" + id2, sha256Hex)
  {
    var prefix := ToLower(provider);
    var h1 := ShortHash(prefix + ":" + id1, sha256Hex);
    var h2 := ShortHash(prefix + ":" + id2, sha256Hex);
    if prefix + "_" + h1 == prefix + "_" + h2 {
      assert h1 == (prefix + "_" + h1)[|prefix| + 1..];
      assert h2 == (prefix + "_" + h2)[|prefix| + 1..];
    }
  }
}

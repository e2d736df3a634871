/**
 * `DeviceTypeValidator.normalizeOrThrow`: the device type a client reports
 * at login, reduced to one of the five platforms the backend knows. A
 * missing or blank type means the web client.
 */
module DeviceTypes {
  import opened Common
  import opened Text

  const Default: string := "WEB"

  /** The platforms the validator accepts, in their normal (upper-case) form. */
  const Allowed: set<string> := {"WEB", "ANDROID", "IOS", "WINDOWS", "MACOS"}

  /**
   * The message of the refusal. It prints the allowed set; `Set.of` does
   * not fix an iteration order, so the order written here is one of the
   * possible renderings.
   */
  const Refusal: string := "Invalid deviceType. Allowed values: [WEB, ANDROID, IOS, WINDOWS, MACOS]"

  /**
   * `normalizeOrThrow`: no text gives the default; otherwise the trimmed,
   * upper-cased type when it is allowed, and a BadRequest when it is not.
   */
  function NormalizeOrThrow(raw: Option<string>): (r: Result<string>)
    ensures r.Ok? ==> r.value in Allowed
    ensures !HasText(raw) ==> r == Ok(Default)
    ensures HasText(raw) ==>
      (r.Ok? <==> ToUpper(Trim(raw.value)) in Allowed)
      && (r.Ok? ==> r.value == ToUpper(Trim(raw.value)))
    ensures r.Err? ==> r.error == BadRequest(Refusal)
  {
    if !HasText(raw) then Ok(Default)
    else
      var normalized := ToUpper(Trim(raw.value));
      if normalized !in Allowed then Err(BadRequest(Refusal)) else Ok(normalized)
  }

  /** Every allowed type is its own normal form and has text. */
  lemma AllowedIsNormal(v: string)
    requires v in Allowed
    ensures HasText(Some(v)) && ToUpper(Trim(v)) == v
  {
    assert IsUpperLetters(v, 7);
    UpperLettersNormal(v, 7);
    assert !IsWhitespace(v[0]);
  }

  /** Normalising an already normalised type returns it unchanged. */
  lemma NormalizeIdempotent(raw: Option<string>)
    requires NormalizeOrThrow(raw).Ok?
    ensures NormalizeOrThrow(Some(NormalizeOrThrow(raw).value)) == NormalizeOrThrow(raw)
  {
    AllowedIsNormal(NormalizeOrThrow(raw).value);
  }

  /**
   * A type is accepted exactly when it is missing, blank, or equal to an
   * allowed platform once trimmed and compared without regard to case.
   */
  lemma AcceptedTypes(raw: Option<string>)
    ensures NormalizeOrThrow(raw).Ok? <==>
      !HasText(raw) || exists v :: v in Allowed && EqualsIgnoreCase(Trim(raw.value), v)
  {
    if HasText(raw) {
      var t := Trim(raw.value);
      if ToUpper(t) in Allowed {
        var v := ToUpper(t);
        AllowedIsNormal(v);
        assert EqualsIgnoreCase(t, v);
      }
      if exists v :: v in Allowed && EqualsIgnoreCase(t, v) {
        var v :| v in Allowed && EqualsIgnoreCase(t, v);
        AllowedIsNormal(v);
        TrimOfTrimmed(v);
      }
    }
  }

  /**
   * Worked cases: a padded lower-case platform is accepted in normal form;
   * "ETC", which the device DTO's comment lists, is refused.
   */
  lemma ExampleTypes()
    ensures NormalizeOrThrow(Some(" ios ")) == Ok("IOS")
    ensures NormalizeOrThrow(Some("macOS")) == Ok("MACOS")
    ensures NormalizeOrThrow(Some("ETC")) == Err(BadRequest(Refusal))
    ensures NormalizeOrThrow(Some("   ")) == Ok(Default)
  {
    assert !IsWhitespace(" ios "[1]);
    assert Trim(" ios ") == "ios" by {
      assert TrimStart(" ios ") == "ios ";
      assert TrimEnd("ios ") == "ios";
    }
    assert ToUpper("ios") == "IOS";
    assert !IsWhitespace("macOS"[0]);
    assert Trim("macOS") == "macOS" by { TrimOfTrimmed("macOS"); }
    assert ToUpper("macOS") == "MACOS";
    assert !IsWhitespace("ETC"[0]);
    assert Trim("ETC") == "ETC" by { TrimOfTrimmed("ETC"); }
    assert ToUpper("ETC") == "ETC";
    assert "ETC" !in Allowed;
  }
}

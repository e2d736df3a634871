/**
 * The outcome logic of the time-series client (`TwelveDataTimeSeriesClient`):
 * how a response body is recognised as a rate-limit answer, how the message of
 * the rate-limit exception is built, which responses are logged as
 * suspicious, and how `fetchAsDto` turns an HTTP exchange into a DTO, `null`
 * or a rate-limit exception. The HTTP call itself is a parameter: what the
 * exchange returned or threw.
 */
module TimeSeriesClient {
  import opened Common
  import opened Text

  /** The head of every rate-limit exception message. */
  const RateLimitMessageHead: string := "TWELVEDATA_RATE_LIMIT code=429 msg="

  /** How much of the body a rate-limit message quotes. */
  const RateLimitQuoteMax: nat := 300

  /** `isRateLimitBody`: a body with text that carries one of the provider's rate-limit markers; the last two are looked for in the lower-cased body. */
  predicate IsRateLimitBody(body: Option<string>) {
    HasText(body)
    && (Contains(body.value, "\"code\":429")
        || Contains(body.value, "\"code\": \"429\"")
        || Contains(body.value, "run out of API credits")
        || Contains(ToLower(body.value), "api credits")
        || Contains(ToLower(body.value), "rate limit"))
  }

  /** A rate-limit body is still one inside any surrounding text: the markers are looked for anywhere in the body. */
  lemma RateLimitBodyInContext(a: string, body: string, c: string)
    requires IsRateLimitBody(Some(body))
    ensures IsRateLimitBody(Some(a + body + c))
  {
    HasTextInContext(a, body, c);
    ToLowerAppend(a, body);
    ToLowerAppend(a + body, c);
    assert ToLower(a + body + c) == ToLower(a) + ToLower(body) + ToLower(c);
    if Contains(body, "\"code\":429") {
      ContainsInContext(a, body, c, "\"code\":429");
    } else if Contains(body, "\"code\": \"429\"") {
      ContainsInContext(a, body, c, "\"code\": \"429\"");
    } else if Contains(body, "run out of API credits") {
      ContainsInContext(a, body, c, "run out of API credits");
    } else if Contains(ToLower(body), "api credits") {
      ContainsInContext(ToLower(a), ToLower(body), ToLower(c), "api credits");
    } else {
      ContainsInContext(ToLower(a), ToLower(body), ToLower(c), "rate limit");
    }
  }

  /**
   * `prefix(s, max)`: "null" for a string without text; otherwise the trimmed
   * string, cut to its first `max` characters followed by "..." when longer.
   */
  function Prefix(s: Option<string>, max: nat): (r: string)
    ensures |r| <= Max(4, max + 3)
    ensures !HasText(s) ==> r == "null"
    ensures HasText(s) && |Trim(s.value)| <= max ==> r == Trim(s.value)
    ensures HasText(s) && |Trim(s.value)| > max ==>
      |r| == max + 3 && StartsWith(Trim(s.value), r[..max]) && r[max..] == "..."
  {
    if !HasText(s) then "null"
    else
      var trimmed := Trim(s.value);
      if |trimmed| <= max then trimmed else trimmed[..max] + "..."
  }

  /** `extractRateLimitMessage`: the fixed head followed by the body's first 300 characters. */
  function RateLimitMessage(body: Option<string>): (r: string)
    ensures StartsWith(r, RateLimitMessageHead)
    ensures r[|RateLimitMessageHead|..] == Prefix(body, RateLimitQuoteMax)
    ensures |r| <= |RateLimitMessageHead| + RateLimitQuoteMax + 3
  {
    RateLimitMessageHead + Prefix(body, RateLimitQuoteMax)
  }

  /** `status.is2xxSuccessful()`. */
  predicate Is2xx(status: int) { 200 <= status < 300 }

  /** `shouldLogSuspicious`: a response worth a warning in the log. */
  predicate ShouldLogSuspicious(status: Option<int>, body: Option<string>) {
    if status.None? || !Is2xx(status.value) then true
    else if !HasText(body) then true
    else if IsRateLimitBody(body) then false
    else
      var b := body.value;
      (Contains(b, "\"status\"") && Contains(b, "error"))
      || (Contains(b, "\"code\"") && Contains(b, "\"message\""))
      || !Contains(b, "\"values\"")
      || Contains(b, "\"values\":[]")
  }

  /**
   * A successful response is suspicious exactly when its body is blank, or it is
   * not a rate-limit body and either carries an error marker or has no
   * non-empty `values`; a rate-limit body is never suspicious.
   */
  lemma SuspiciousRule(status: int, body: Option<string>)
    requires Is2xx(status)
    ensures IsRateLimitBody(body) ==> !ShouldLogSuspicious(Some(status), body)
    ensures HasText(body) && !IsRateLimitBody(body) && Contains(body.value, "\"values\"")
            && !Contains(body.value, "\"values\":[]") && !Contains(body.value, "error")
            && !Contains(body.value, "\"message\"")
            ==> !ShouldLogSuspicious(Some(status), body)
    ensures !HasText(body) ==> ShouldLogSuspicious(Some(status), body)
  {
  }

  /** What the HTTP exchange did: answered with a 2xx status and a body, failed with an error status and its body, or threw before any answer (I/O). */
  datatype Exchange =
    | Answered(status: int, body: Option<string>)
    | HttpError(status: int, body: Option<string>)
    | NoAnswer

  /**
   * `fetchAsDto`: a 2xx body without text is `null`; a rate-limit body, in a 2xx
   * answer or an error answer, is a rate-limit exception; a 2xx body is
   * otherwise read as the DTO, and every other failure (a body that does not
   * read, an error answer, an I/O failure) is `null`.
   */
  function FetchAsDto<T>(x: Exchange, readDto: string -> Option<T>): (r: Result<Option<T>>)
    ensures r.Err? <==> !x.NoAnswer? && IsRateLimitBody(x.body)
    ensures r.Err? ==> r.error == RateLimited(RateLimitMessage(x.body))
                       && StartsWith(r.error.message, RateLimitMessageHead)
    ensures r.Ok? && r.value.Some? ==> x.Answered? && HasText(x.body) && readDto(x.body.value) == Some(r.value.value)
    ensures x.Answered? && HasText(x.body) && !IsRateLimitBody(x.body) ==> r == Ok(readDto(x.body.value))
  {
    match x
    case Answered(_, body) =>
      if !HasText(body) then Ok(None)
      else if IsRateLimitBody(body) then Err(RateLimited(RateLimitMessage(body)))
      else Ok(readDto(body.value))
    case HttpError(_, body) =>
      if IsRateLimitBody(body) then Err(RateLimited(RateLimitMessage(body))) else Ok(None)
    case NoAnswer => Ok(None)
  }
}

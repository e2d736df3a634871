/**
 * `GlobalExceptionHandler`: the HTTP status, error code and message that
 * the failures it handles are turned into. Failures it does not handle go
 * to the framework's default handling and give `None` here.
 */
module Errors {
  import opened Common
  import opened Users
  import Auth
  import EmailTokens
  import EmailVerification

  datatype ErrorResponse = ErrorResponse(status: int, code: string, message: string)

  const NotVerifiedCode: string := "EMAIL_NOT_VERIFIED"
  const NotVerifiedMessage: string := "이메일 인증이 필요합니다."
  const InvalidCredentialsCode: string := "INVALID_CREDENTIALS"
  const InvalidCredentialsMessage: string := "이메일 또는 비밀번호가 올바르지 않습니다."

  /**
   * The handler table. `conflictMessage` is the message of a
   * `ResourceAlreadyInUseException` built from its resource, field and value.
   */
  function Handle(f: Failure, conflictMessage: (string, string, string) -> string): (r: Option<ErrorResponse>)
    ensures f.BadRequest? ==> r == Some(ErrorResponse(400, "BAD_REQUEST", f.message))
    ensures f.ResourceAlreadyInUse? ==>
      r == Some(ErrorResponse(409, "RESOURCE_ALREADY_IN_USE", conflictMessage(f.resource, f.field, f.value)))
    ensures f.ExpiredToken? ==> r == Some(ErrorResponse(410, "TOKEN_EXPIRED", f.message))
    ensures f.BadCredentials? ==> r.Some? && r.value.status == 401
    ensures f.BadCredentials? ==>
      (r.value.code == NotVerifiedCode <==> f.message == "EMAIL_NOT_VERIFIED")
      && (r.value.code == NotVerifiedCode ==> r.value.message == NotVerifiedMessage)
      && (r.value.code != NotVerifiedCode ==>
            r.value == ErrorResponse(401, InvalidCredentialsCode, InvalidCredentialsMessage))
    ensures r.Some? <==> f.BadRequest? || f.ResourceAlreadyInUse? || f.ExpiredToken? || f.BadCredentials?
  {
    match f
    case BadRequest(message) => Some(ErrorResponse(400, "BAD_REQUEST", message))
    case ResourceAlreadyInUse(resource, field, value) =>
      Some(ErrorResponse(409, "RESOURCE_ALREADY_IN_USE", conflictMessage(resource, field, value)))
    case ExpiredToken(message) => Some(ErrorResponse(410, "TOKEN_EXPIRED", message))
    case BadCredentials(message) =>
      if message == "EMAIL_NOT_VERIFIED" then Some(ErrorResponse(401, NotVerifiedCode, NotVerifiedMessage))
      else Some(ErrorResponse(401, InvalidCredentialsCode, InvalidCredentialsMessage))
    case _ => None
  }

  /**
   * A password login's refusals reach the client as 401: a wrong password
   * as INVALID_CREDENTIALS, a correct password on an unverified account as
   * EMAIL_NOT_VERIFIED with the request to verify.
   */
  lemma LoginRefusalsAre401(users: UserRepository, email: Option<string>, password: Option<string>,
                            matches: (Option<string>, Option<string>) -> bool,
                            conflictMessage: (string, string, string) -> string)
    requires users.FindByEmail(email).Some?
    ensures var row := users.FindByEmail(email).value;
      var r := Auth.AuthenticateUser(users, email, password, matches);
      (!matches(password, row.columns.password) ==>
         Handle(r.error, conflictMessage) == Some(ErrorResponse(401, InvalidCredentialsCode, InvalidCredentialsMessage)))
      && (matches(password, row.columns.password) && !row.columns.isEmailVerified ==>
         Handle(r.error, conflictMessage) == Some(ErrorResponse(401, NotVerifiedCode, NotVerifiedMessage)))
  {
    var row := users.FindByEmail(email).value;
    if !matches(password, row.columns.password) {
      assert Auth.AuthenticateUser(users, email, password, matches) == Err(BadCredentials("Invalid password"));
      assert "Invalid password" != "EMAIL_NOT_VERIFIED";
    }
  }

  /** Every refusal of a verification link is a client error the handler answers with 400, 409 or 410. */
  lemma VerifyRefusalsAreClientErrors(users: UserRepository, tokens: EmailTokens.TokenRepository, rawToken: Option<string>,
                                      sha256Hex: string -> string, now: int,
                                      conflictMessage: (string, string, string) -> string)
    requires EmailVerification.VerifyCheck(users, tokens, rawToken, sha256Hex, now).Err?
    ensures var f := EmailVerification.VerifyCheck(users, tokens, rawToken, sha256Hex, now).error;
      Handle(f, conflictMessage).Some? && Handle(f, conflictMessage).value.status in {400, 409, 410}
  {
    var f := EmailVerification.VerifyCheck(users, tokens, rawToken, sha256Hex, now).error;
    assert f.BadRequest? || f.ResourceAlreadyInUse? || f.ExpiredToken?;
  }
}

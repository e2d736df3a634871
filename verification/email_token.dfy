/**
 * `EmailVerificationToken`: a one-time e-mail verification token as the
 * database keeps it (only the hash of the raw token), with its expiry and
 * the moment it was used. Times are seconds on an explicit clock.
 */
module EmailTokens {
  import opened Common

  class EmailVerificationToken {
    const userId: int
    const email: string
    const tokenHash: string
    const expiresAt: int
    var usedAt: Option<int>

    /** `create`: the token expires `ttl` seconds after `now` and is not used yet. */
    constructor Create(userId: int, email: string, tokenHash: string, ttl: int, now: int)
      ensures this.userId == userId && this.email == email && this.tokenHash == tokenHash
      ensures expiresAt == now + ttl && usedAt.None?
      ensures !IsUsed()
      ensures ttl >= 0 ==> !IsExpired(now)
    {
      this.userId, this.email, this.tokenHash := userId, email, tokenHash;
      expiresAt := now + ttl;
      usedAt := None;
    }

    /** `isExpired`: strictly after the expiry instant. */
    predicate IsExpired(now: int)
      reads this
    {
      now > expiresAt
    }

    /** `isUsed`. */
    predicate IsUsed()
      reads this
    {
      usedAt.Some?
    }

    /** `markUsed`: records the moment; nothing else changes. */
    method MarkUsed(now: int)
      modifies this
      ensures usedAt == Some(now) && IsUsed()
    {
      usedAt := Some(now);
    }
  }

  /** The token repository: saved tokens, looked up by their hash (a unique column). */
  class TokenRepository {
    var tokens: seq<EmailVerificationToken>

    ghost predicate Valid()
      reads this, set t | t in tokens
    {
      NoDuplicates(tokens)
      && forall i, j :: 0 <= i < j < |tokens| ==> tokens[i].tokenHash != tokens[j].tokenHash
    }

    constructor ()
      ensures tokens == [] && Valid()
    {
      tokens := [];
    }

    function FindByTokenHash(hash: string): (r: Option<EmailVerificationToken>)
      reads this, set t | t in tokens
      ensures r.Some? ==> r.value in tokens && r.value.tokenHash == hash
      ensures r.None? ==> forall t :: t in tokens ==> t.tokenHash != hash
    {
      FindIn(tokens, hash)
    }

    /** `save` of a token: a new token is appended, unless its hash is already taken. */
    method Save(t: EmailVerificationToken) returns (r: Result<EmailVerificationToken>)
      requires Valid()
      modifies this
      ensures Valid()
      ensures t in old(tokens) ==> r == Ok(t) && tokens == old(tokens)
      ensures t !in old(tokens) && old(FindByTokenHash(t.tokenHash)).Some? ==>
        r == Err(DataIntegrityViolation) && tokens == old(tokens)
      ensures t !in old(tokens) && old(FindByTokenHash(t.tokenHash)).None? ==>
        r == Ok(t) && tokens == old(tokens) + [t]
    {
      if t in tokens {
        return Ok(t);
      }
      if FindByTokenHash(t.tokenHash).Some? {
        return Err(DataIntegrityViolation);
      }
      tokens := tokens + [t];
      r := Ok(t);
    }
  }

  function FindIn(ts: seq<EmailVerificationToken>, hash: string): (r: Option<EmailVerificationToken>)
    reads set t | t in ts
    ensures r.Some? ==> r.value in ts && r.value.tokenHash == hash
    ensures r.None? ==> forall t :: t in ts ==> t.tokenHash != hash
    decreases |ts|
  {
    if |ts| == 0 then None
    else if ts[0].tokenHash == hash then Some(ts[0])
    else FindIn(ts[1..], hash)
  }

  /**
   * The step every sign-up and resend shares: a token for the user is
   * created from the hash of the raw token, saved, and the raw token is
   * mailed. A hash the table already holds is refused and no mail goes out.
   */
  method IssueVerification(tokens: TokenRepository, outbox: Outbox, userId: int, email: string, rawToken: string,
                           sha256Hex: string -> string, ttl: int, now: int)
    returns (r: Result<EmailVerificationToken>)
    requires tokens.Valid()
    modifies tokens, outbox
    ensures tokens.Valid()
    ensures r.Ok? <==> old(tokens.FindByTokenHash(sha256Hex(rawToken))).None?
    ensures r.Err? ==> r.error == DataIntegrityViolation && tokens.tokens == old(tokens.tokens) && outbox.sent == old(outbox.sent)
    ensures r.Ok? ==>
      var t := r.value;
      fresh(t) && tokens.tokens == old(tokens.tokens) + [t]
      && t.userId == userId && t.email == email && t.tokenHash == sha256Hex(rawToken)
      && t.expiresAt == now + ttl && !t.IsUsed()
      && outbox.sent == old(outbox.sent) + [(email, rawToken)]
  {
    var token := new EmailVerificationToken.Create(userId, email, sha256Hex(rawToken), ttl, now);
    r := tokens.Save(token);
    if r.Ok? {
      outbox.SendEmailVerification(email, rawToken);
    }
  }

  /** The mail sender: the verification mails sent so far, as (recipient, raw token). */
  class Outbox {
    var sent: seq<(string, string)>

    constructor ()
      ensures sent == []
    {
      sent := [];
    }

    /** `sendEmailVerification`: one more mail carrying the raw token. */
    method SendEmailVerification(to: string, rawToken: string)
      modifies this
      ensures sent == old(sent) + [(to, rawToken)]
    {
      sent := sent + [(to, rawToken)];
    }
  }
}

/** The password-reset endpoint of `pages/api/auth/reset-password.ts`. A POST issues a reset token
    for a known e-mail address and mails it; a PUT redeems a token for a new password. Storage is
    a pair of maps, the random token, the clock (milliseconds) and the bcrypt hash are inputs. The
    mailer catches its own errors and the handler ignores its answer, so the mail is recorded but
    its fate is not. Request-body fields are texts, `None` when absent. */
module PasswordReset {
  import opened Base

  /** `verificationToken`: whose address it resets and when it stops being valid. */
  datatype Token = Token(identifier: string, expires: int)

  /** Users by e-mail with their password hashes, and reset tokens by token text. */
  datatype Store = Store(users: map<string, string>, tokens: map<string, Token>)

  datatype Reply = Reply(status: int, message: string)

  /** What the handler did: its reply, the store after it, and the mail it sent (address, token). */
  datatype Outcome = Outcome(reply: Reply, store: Store, mailed: Option<(string, string)>)

  const DAY_MS := 24 * 60 * 60 * 1000

  const NOT_ALLOWED := Reply(405, "Method not allowed")
  const MISSING := Reply(400, "Missing required fields")
  const NO_USER := Reply(404, "User not found")
  const SENT := Reply(200, "Password reset email sent")
  const INVALID := Reply(400, "Invalid token")
  const EXPIRED := Reply(400, "Token expired")
  const UPDATED := Reply(200, "Password updated successfully")
  const SERVER_ERROR := Reply(500, "Internal server error")

  /** `!field` for a text field. */
  predicate Missing(field: Option<string>) {
    field.None? || field.value == ""
  }

  /** A POST: a new token for the address, valid for a day, and the mail that carries it. A
      token text already in use violates the unique key and throws before anything is written. A
      failed mail is caught and logged inside the mailer, so the reply is the same either way. */
  function RequestReset(s: Store, email: Option<string>, now: int, issuedToken: string): (r: Outcome)
    ensures Missing(email) ==> r == Outcome(MISSING, s, None)
    ensures !Missing(email) && email.value !in s.users ==> r == Outcome(NO_USER, s, None)
    ensures !Missing(email) && email.value in s.users && issuedToken in s.tokens ==> r == Outcome(SERVER_ERROR, s, None)
    ensures !Missing(email) && email.value in s.users && issuedToken !in s.tokens ==>
              && r.store == s.(tokens := s.tokens[issuedToken := Token(email.value, now + DAY_MS)])
              && r.mailed == Some((email.value, issuedToken))
              && r.reply == SENT
    // the users are never touched
    ensures r.store.users == s.users
  {
    if Missing(email) then Outcome(MISSING, s, None)
    else if email.value !in s.users then Outcome(NO_USER, s, None)
    else if issuedToken in s.tokens then Outcome(SERVER_ERROR, s, None)
    else
      var s' := s.(tokens := s.tokens[issuedToken := Token(email.value, now + DAY_MS)]);
      Outcome(SENT, s', Some((email.value, issuedToken)))
  }

  /** A PUT. A token past its expiry is deleted and refused. A valid one sets the password of the
      user whose address it names and is then deleted; when no such user exists the update throws
      and the token stays. */
  function Redeem(s: Store, token: Option<string>, password: Option<string>, now: int,
                  hash: string -> string): (r: Outcome)
    ensures r.mailed.None?
    ensures Missing(token) || Missing(password) ==> r.reply == MISSING && r.store == s
    ensures !Missing(token) && !Missing(password) && token.value !in s.tokens ==> r.reply == INVALID && r.store == s
    ensures !Missing(token) && !Missing(password) && token.value in s.tokens ==>
              var t := s.tokens[token.value];
              if t.expires < now then
                r.reply == EXPIRED && r.store == s.(tokens := s.tokens - {token.value})
              else if t.identifier !in s.users then
                r.reply == SERVER_ERROR && r.store == s
              else
                && r.reply == UPDATED
                && r.store == Store(s.users[t.identifier := hash(password.value)], s.tokens - {token.value})
    // only a successful redemption changes a password, and then only the token owner's
    ensures r.reply != UPDATED ==> r.store.users == s.users
    ensures forall e :: e in s.users && (r.reply != UPDATED || e != s.tokens[token.value].identifier)
                        ==> e in r.store.users && r.store.users[e] == s.users[e]
  {
    if Missing(token) || Missing(password) then Outcome(MISSING, s, None)
    else if token.value !in s.tokens then Outcome(INVALID, s, None)
    else
      var t := s.tokens[token.value];
      if t.expires < now then Outcome(EXPIRED, s.(tokens := s.tokens - {token.value}), None)
      else if t.identifier !in s.users then Outcome(SERVER_ERROR, s, None)
      else Outcome(UPDATED, Store(s.users[t.identifier := hash(password.value)], s.tokens - {token.value}), None)
  }

  /** The request's method. */
  datatype Method = Post | Put | Other(name: string)

  /** The handler: POST and PUT only. */
  function Handle(s: Store, m: Method, email: Option<string>, token: Option<string>, password: Option<string>,
                  now: int, issuedToken: string, hash: string -> string): (r: Outcome)
    ensures m.Other? ==> r == Outcome(NOT_ALLOWED, s, None)
    ensures m.Post? ==> r == RequestReset(s, email, now, issuedToken)
    ensures m.Put? ==> r == Redeem(s, token, password, now, hash)
  {
    match m
    case Post => RequestReset(s, email, now, issuedToken)
    case Put => Redeem(s, token, password, now, hash)
    case Other(_) => Outcome(NOT_ALLOWED, s, None)
  }

  // -----------------------------------------------------------------------------------------------
  // Properties across requests

  /** A token is single-use: once redeemed, presenting it again is refused as invalid and changes
      nothing. */
  lemma TokenIsSingleUse(s: Store, token: string, p1: string, p2: string, now1: int, now2: int, hash: string -> string)
    requires p2 != ""
    requires Redeem(s, Some(token), Some(p1), now1, hash).reply == UPDATED
    ensures var s1 := Redeem(s, Some(token), Some(p1), now1, hash).store;
            Redeem(s1, Some(token), Some(p2), now2, hash) == Outcome(INVALID, s1, None)
  {
    var s1 := Redeem(s, Some(token), Some(p1), now1, hash).store;
    assert token in s.tokens && s1.tokens == s.tokens - {token};
  }

  /** The round trip: the token a POST mails, redeemed within a day, sets that user's password,
      and nobody else's. */
  lemma ResetRoundTrip(s: Store, email: string, now: int, issuedToken: string, later: int, password: string, hash: string -> string)
    requires email != "" && email in s.users && issuedToken != "" && issuedToken !in s.tokens && password != ""
    requires now <= later <= now + DAY_MS
    ensures var issued := RequestReset(s, Some(email), now, issuedToken);
            && issued.reply == SENT && issued.mailed == Some((email, issuedToken))
            && var redeemed := Redeem(issued.store, Some(issuedToken), Some(password), later, hash);
               && redeemed.reply == UPDATED
               && redeemed.store.users == s.users[email := hash(password)]
               && redeemed.store.tokens == s.tokens
  {
    var issued := RequestReset(s, Some(email), now, issuedToken);
    assert issued.store.tokens[issuedToken] == Token(email, now + DAY_MS);
    assert issued.store.tokens - {issuedToken} == s.tokens;
  }

  /** A token presented after its day is up is refused and deleted, and the password is kept. */
  lemma LateTokenRefused(s: Store, email: string, now: int, issuedToken: string, later: int, password: string, hash: string -> string)
    requires email != "" && email in s.users && issuedToken != "" && issuedToken !in s.tokens && password != ""
    requires later > now + DAY_MS
    ensures var issued := RequestReset(s, Some(email), now, issuedToken);
            var redeemed := Redeem(issued.store, Some(issuedToken), Some(password), later, hash);
            && redeemed.reply == EXPIRED
            && redeemed.store.users == s.users
            && issuedToken !in redeemed.store.tokens
  {
  }
}

/** The credential sign-in of `lib/auth/config.ts`: the `authorize` lockout and verification state
    machine, and the `redirect` callback. Users are a map from e-mail to account, the clock is a
    number of milliseconds, and the bcrypt comparison is an oracle. */
module Auth {
  import opened Base
  import opened Text

  /** `MAX_LOGIN_ATTEMPTS` and `LOGIN_ATTEMPT_WINDOW` (seconds), read once from the environment. */
  datatype Config = Config(maxAttempts: int, window: int)

  function DefaultConfig(): (c: Config)
    ensures c.maxAttempts == 5 && c.window == 300
  {
    Config(5, 300)
  }

  datatype Membership = Membership(teamId: string, teamName: string, role: string)

  /** The stored user with the fields `authorize` reads and writes. `lockedAt` is a time in
      milliseconds. */
  datatype Account = Account(
    id: string,
    email: string,
    passwordHash: Option<string>,
    attempts: int,
    lockedAt: Option<int>,
    emailVerified: bool,
    memberships: seq<Membership>)

  /** What the sign-in form submitted; a missing field is `None`. */
  datatype Credentials = Credentials(email: Option<string>, password: Option<string>)

  datatype TeamRef = TeamRef(id: string, name: string, role: string)
  datatype SignedIn = SignedIn(id: string, email: string, teams: seq<TeamRef>)

  datatype Outcome = Authorized(user: SignedIn) | Rejected(message: string)

  const MISSING_CREDENTIALS := "Please enter your email and password"
  const INVALID := "Invalid email or password"
  const LOCKED := "Account is temporarily locked. Please try again later."
  const UNVERIFIED := "Please verify your email before signing in"

  /** Is the account locked at `now`: was it locked less than a window ago? */
  predicate Locked(cfg: Config, a: Account, now: int) {
    a.lockedAt.Some? && a.lockedAt.value > now - cfg.window * 1000
  }

  /** The teams a signed-in user carries: one entry per membership, in order. */
  function Teams(ms: seq<Membership>): (r: seq<TeamRef>)
    ensures |r| == |ms|
    ensures forall i :: 0 <= i < |ms| ==> r[i] == TeamRef(ms[i].teamId, ms[i].teamName, ms[i].role)
  {
    if ms == [] then [] else [TeamRef(ms[0].teamId, ms[0].teamName, ms[0].role)] + Teams(ms[1..])
  }

  /** One password attempt on a known account with a stored hash. `matches(password, hash)` is
      the bcrypt comparison. */
  function Attempt(cfg: Config, a: Account, password: string, now: int, matches: (string, string) -> bool): (r: (Account, Outcome))
    requires a.passwordHash.Some? && a.passwordHash.value != ""
    // a locked account is refused before the password is looked at, and nothing changes
    ensures Locked(cfg, a, now) ==> r == (a, Rejected(LOCKED))
    // a wrong password counts exactly one failure, and locks iff the count reaches the maximum
    ensures !Locked(cfg, a, now) && !matches(password, a.passwordHash.value) ==>
              && r.1 == Rejected(INVALID)
              && r.0 == a.(attempts := a.attempts + 1, lockedAt := if a.attempts + 1 >= cfg.maxAttempts then Some(now) else None)
    // a right password on an unverified address is refused and the counter stays
    ensures !Locked(cfg, a, now) && matches(password, a.passwordHash.value) && !a.emailVerified ==>
              r == (a, Rejected(UNVERIFIED))
    // success clears the counter and the lock, and hands out one team per membership
    ensures r.1.Authorized? <==> !Locked(cfg, a, now) && matches(password, a.passwordHash.value) && a.emailVerified
    ensures r.1.Authorized? ==>
              && r.0 == a.(attempts := 0, lockedAt := None)
              && r.1.user.id == a.id && r.1.user.email == a.email && r.1.user.teams == Teams(a.memberships)
    // only success lowers the counter
    ensures r.1.Rejected? ==> r.0.attempts >= a.attempts
    ensures r.0.id == a.id && r.0.email == a.email && r.0.passwordHash == a.passwordHash && r.0.memberships == a.memberships
  {
    if Locked(cfg, a, now) then (a, Rejected(LOCKED))
    else if !matches(password, a.passwordHash.value) then
      var failures := a.attempts + 1;
      (a.(attempts := failures, lockedAt := if failures >= cfg.maxAttempts then Some(now) else None), Rejected(INVALID))
    else if !a.emailVerified then (a, Rejected(UNVERIFIED))
    else (a.(attempts := 0, lockedAt := None), Authorized(SignedIn(a.id, a.email, Teams(a.memberships))))
  }

  /** `authorize`: the whole request against the user table. */
  function Authorize(cfg: Config, users: map<string, Account>, creds: Credentials, now: int,
                     matches: (string, string) -> bool): (r: (map<string, Account>, Outcome))
    // missing credentials are refused before any lookup
    ensures !Filled(creds.email) || !Filled(creds.password) ==> r == (users, Rejected(MISSING_CREDENTIALS))
    // an unknown user and a user without a password look the same as a wrong password
    ensures Filled(creds.email) && Filled(creds.password) &&
            (creds.email.value !in users || !Filled(users[creds.email.value].passwordHash)) ==>
              r == (users, Rejected(INVALID))
    // otherwise the attempt decides, and the account is written back with its new counter and lock
    ensures Filled(creds.email) && Filled(creds.password) && creds.email.value in users &&
            Filled(users[creds.email.value].passwordHash) ==>
              var (a, o) := Attempt(cfg, users[creds.email.value], creds.password.value, now, matches);
              r == (users[creds.email.value := a], o)
    // only the signing-in account can change
    ensures r.0.Keys == users.Keys
    ensures forall e :: e in users && (!Filled(creds.email) || e != creds.email.value) ==> r.0[e] == users[e]
    ensures r.1.Authorized? ==> Filled(creds.email) && creds.email.value in users && users[creds.email.value].emailVerified
  {
    if !Filled(creds.email) || !Filled(creds.password) then (users, Rejected(MISSING_CREDENTIALS))
    else
      var email := creds.email.value;
      if email !in users || !Filled(users[email].passwordHash) then (users, Rejected(INVALID))
      else
        var (a, outcome) := Attempt(cfg, users[email], creds.password.value, now, matches);
        (users[email := a], outcome)
  }

  /** Once the counter has reached the maximum, only a success resets it: every further wrong
      password, after the lock has expired, locks the account again at once. */
  lemma WrongPasswordRelocks(cfg: Config, a: Account, password: string, now: int, matches: (string, string) -> bool)
    requires a.passwordHash.Some? && a.passwordHash.value != "" && !matches(password, a.passwordHash.value)
    requires a.attempts + 1 >= cfg.maxAttempts && !Locked(cfg, a, now)
    ensures var (a', o) := Attempt(cfg, a, password, now, matches);
            o == Rejected(INVALID) && a'.lockedAt == Some(now) && a'.attempts == a.attempts + 1
  {
  }

  /** A lock holds for the whole window: every attempt in the following `window` seconds is refused
      without looking at the password, and leaves the account as it is. */
  lemma LockHoldsForWindow(cfg: Config, a: Account, wrong: string, now: int, later: int, any: string,
                           matches: (string, string) -> bool)
    requires a.passwordHash.Some? && a.passwordHash.value != "" && !matches(wrong, a.passwordHash.value)
    requires a.attempts + 1 >= cfg.maxAttempts && !Locked(cfg, a, now)
    requires now <= later < now + cfg.window * 1000
    ensures var (a1, _) := Attempt(cfg, a, wrong, now, matches);
            Attempt(cfg, a1, any, later, matches) == (a1, Rejected(LOCKED))
  {
  }

  /** Through the whole request: a wrong password that reaches the maximum locks the account, so
      the right password is refused for the whole window and accepted after it, with the counter
      and the lock cleared. */
  lemma LockoutThenRecovery(cfg: Config, users: map<string, Account>, email: string, wrong: string, right: string,
                            now: int, later: int, matches: (string, string) -> bool)
    requires email in users && Filled(users[email].passwordHash) && users[email].emailVerified
    requires email != "" && wrong != "" && right != ""
    requires !matches(wrong, users[email].passwordHash.value) && matches(right, users[email].passwordHash.value)
    requires users[email].attempts + 1 >= cfg.maxAttempts && !Locked(cfg, users[email], now)
    requires now <= later
    ensures var (u1, o1) := Authorize(cfg, users, Credentials(Some(email), Some(wrong)), now, matches);
            var (u2, o2) := Authorize(cfg, u1, Credentials(Some(email), Some(right)), later, matches);
            && o1 == Rejected(INVALID)
            && (later < now + cfg.window * 1000 ==> u2 == u1 && o2 == Rejected(LOCKED))
            && (later >= now + cfg.window * 1000 ==>
                  o2.Authorized? && o2.user.id == users[email].id && u2[email].attempts == 0 && u2[email].lockedAt == None)
  {
    var (u1, o1) := Authorize(cfg, users, Credentials(Some(email), Some(wrong)), now, matches);
    assert u1[email] == users[email].(attempts := users[email].attempts + 1, lockedAt := Some(now));
  }

  /** A sequence of sign-in attempts on one account, each at its own time. */
  datatype Try = Try(password: string, at: int)

  function AttemptAll(cfg: Config, a: Account, tries: seq<Try>, matches: (string, string) -> bool): (r: Account)
    requires a.passwordHash.Some? && a.passwordHash.value != ""
    ensures r.passwordHash == a.passwordHash
    decreases |tries|
  {
    if tries == [] then a
    else AttemptAll(cfg, Attempt(cfg, a, tries[0].password, tries[0].at, matches).0, tries[1..], matches)
  }

  /** Without a successful sign-in the counter never goes down, whatever the attempts and their
      timing: lockouts expire, the counter does not. */
  lemma {:induction false} CounterNeverDecreasesWithoutSuccess(cfg: Config, a: Account, tries: seq<Try>, matches: (string, string) -> bool)
    requires a.passwordHash.Some? && a.passwordHash.value != ""
    requires forall i :: 0 <= i < |tries| ==> !matches(tries[i].password, a.passwordHash.value)
    ensures AttemptAll(cfg, a, tries, matches).attempts >= a.attempts
    ensures AttemptAll(cfg, a, tries, matches).attempts <= a.attempts + |tries|
    decreases |tries|
  {
    if tries != [] {
      var a1 := Attempt(cfg, a, tries[0].password, tries[0].at, matches).0;
      assert forall i :: 0 <= i < |tries[1..]| ==> !matches(tries[1..][i].password, a1.passwordHash.value) by {
        forall i | 0 <= i < |tries[1..]| ensures !matches(tries[1..][i].password, a1.passwordHash.value) {
          assert tries[1..][i] == tries[i + 1];
        }
      }
      CounterNeverDecreasesWithoutSuccess(cfg, a1, tries[1..], matches);
    }
  }

  // -----------------------------------------------------------------------------------------------
  // The redirect callback

  /** `redirect`: absolute URLs on this site pass, relative paths are made absolute, everything
      else goes to the site root. */
  function Redirect(url: string, baseUrl: string): (r: string)
    // the result never leaves the site
    ensures StartsWith(r, baseUrl)
    ensures r == url <==> StartsWith(url, baseUrl)
    // a relative path is kept, below the site root
    ensures !StartsWith(url, baseUrl) && StartsWith(url, "/") ==> r == baseUrl + url
    // anything else, another site included, is replaced by the site root
    ensures !StartsWith(url, baseUrl) && !StartsWith(url, "/") ==> r == baseUrl
  {
    if StartsWith(url, baseUrl) then url
    else if StartsWith(url, "/") then
      assert (baseUrl + url)[..|baseUrl|] == baseUrl;
      baseUrl + url
    else baseUrl
  }

  /** Sanitising is idempotent: a sanitised target passes unchanged. */
  lemma RedirectIdempotent(url: string, baseUrl: string)
    ensures Redirect(Redirect(url, baseUrl), baseUrl) == Redirect(url, baseUrl)
  {
  }
}

/** The account endpoints (app/routers/auth.py): sign-up with a verification
    mail, e-mail verification with re-issue of expired tokens, and login. */
module AuthRouter {
  import opened Wrappers
  import opened Models
  import opened Schemas
  import opened Crud
  import opened EmailUtils
  import opened Auth

  // ---- Sign-up ----

  /** The verification mail sent on sign-up. */
  function VerificationMail(to: string, fullName: string, token: Uuid): Email
  {
    Email(to, "Verify your email",
          "<p>Hi " + fullName + ", here is your verification token " + UuidText(token)
          + ". Token expires in " + UuidText(VERIFICATION_TOKEN_EXPIRE_MINUTES as nat) + " minutes.</p>")
  }

  /** `signup`: the SignupIn schema first, then e-mail uniqueness; then one
      unverified user with the hashed password, one verification token for it
      and one mail carrying that token. A role string naming no role makes the
      insert fail. Every failure changes nothing. */
  method Signup(db: Db, tasks: BackgroundTasks, fullName: string, email: string, password: string, role: string,
                hash: string -> string, now: Time) returns (r: Result<Uuid, Failure>)
    requires db.Valid()
    modifies db, tasks
    ensures db.Valid()
    ensures !SignupInValid(fullName, password) ==> r == Err(ValidationError)
    ensures (SignupInValid(fullName, password) && EmailTaken(old(db.users), email)) ==> r == Err(EmailExists)
    ensures r.Ok? <==> SignupInValid(fullName, password) && !EmailTaken(old(db.users), email) && ParseRole(role).Some?
    ensures r.Err? ==> unchanged(db) && tasks.queue == old(tasks.queue)
    ensures r.Ok? ==> r.value !in old(db.users)
                      && db.users == old(db.users)[r.value := NewUser(r.value, fullName, email, hash(password),
                                                                      ParseRole(role).value, now)]
    ensures r.Ok? ==> exists t :: t !in old(db.tokens)
                        && db.tokens == old(db.tokens)[t := EmailVerificationToken(t, r.value,
                                                             now + VERIFICATION_TOKEN_EXPIRE_MINUTES, now)]
                        && tasks.queue == old(tasks.queue) + [VerificationMail(email, fullName, t)]
    ensures db.jobs == old(db.jobs) && db.apps == old(db.apps)
  {
    if !SignupInValid(fullName, password) {
      return Err(ValidationError);
    }
    var existing := db.GetUserByEmail(email);
    if existing.Some? {
      return Err(EmailExists);
    }
    var passwordHash := hash(password);
    var user := db.CreateUser(fullName, email, passwordHash, role, now);
    if user.None? {
      return Err(ServerError);
    }
    var token := db.CreateEmailToken(user.value.id, now);
    var mail := VerificationMail(user.value.email, user.value.fullName, token.token);
    SendEmailBackground(tasks, mail.to, mail.subject, mail.html);
    r := Ok(user.value.id);
  }

  // ---- E-mail verification ----

  /** The configured front-end address the re-issued link points at. */
  const FRONTEND_BASE_URL := "http://localhost:3000"

  /** The mail re-issuing a verification link after expiry. */
  function ExpiredMail(to: string, newToken: Uuid): Email
  {
    var link := FRONTEND_BASE_URL + "/api/verify-email?token=" + UuidText(newToken);
    Email(to, "New verification link",
          "<p>Your verification link expired. Click <a href='" + link + "'>here</a> to verify.</p>")
  }

  datatype Verification = Verified(userId: Uuid) | AlreadyVerified(userId: Uuid)

  /** `verify_email`: an unknown token is refused; an expired one (strictly
      earlier than now) is replaced by a fresh token for the same user, mailed
      as a link, and then deleted; a live token of an already verified user
      changes nothing; otherwise the user becomes verified and the token is
      consumed. */
  method VerifyEmail(db: Db, tasks: BackgroundTasks, token: Uuid, now: Time) returns (r: Result<Verification, Failure>)
    requires db.Valid()
    modifies db, tasks
    ensures db.Valid()
    ensures token !in old(db.tokens) <==> r == Err(InvalidToken)
    ensures r == Err(InvalidToken) ==> unchanged(db) && tasks.queue == old(tasks.queue)
    ensures (token in old(db.tokens) && old(db.tokens)[token].expiresAt < now) <==> r == Err(TokenExpired)
    ensures r == Err(TokenExpired) ==>
              var uid := old(db.tokens)[token].userId;
              && db.users == old(db.users)
              && exists t :: t !in old(db.tokens)
                   && db.tokens == old(db.tokens)[t := EmailVerificationToken(t, uid, now + VERIFICATION_TOKEN_EXPIRE_MINUTES, now)] - {token}
                   && tasks.queue == old(tasks.queue) + [ExpiredMail(old(db.users)[uid].email, t)]
    ensures r.Ok? ==> token in old(db.tokens) && now <= old(db.tokens)[token].expiresAt
                      && r.value.userId == old(db.tokens)[token].userId
                      && tasks.queue == old(tasks.queue)
    ensures r.Ok? ==> (r.value.AlreadyVerified? <==> old(db.users)[r.value.userId].isVerified != 0)
    ensures r.Ok? && r.value.AlreadyVerified? ==> unchanged(db)
    ensures r.Ok? && r.value.Verified? ==>
              && db.users == old(db.users)[r.value.userId := old(db.users)[r.value.userId].(isVerified := 1)]
              && db.tokens == old(db.tokens) - {token}
    ensures r.Ok? ==> r.value.userId in db.users && db.users[r.value.userId].isVerified == 1
    ensures r.Err? ==> r.error == InvalidToken || r.error == TokenExpired
    ensures db.jobs == old(db.jobs) && db.apps == old(db.apps)
  {
    var record := db.GetToken(token);
    if record.None? {
      return Err(InvalidToken);
    }
    var rec := record.value;
    if rec.expiresAt < now {
      var newToken := db.CreateEmailToken(rec.userId, now);
      var user := db.users[rec.userId];
      var mail := ExpiredMail(user.email, newToken.token);
      SendEmailBackground(tasks, mail.to, mail.subject, mail.html);
      db.DeleteToken(token);
      return Err(TokenExpired);
    }
    var user := db.users[rec.userId];
    if user.isVerified != 0 {
      return Ok(AlreadyVerified(user.id));
    }
    db.SetVerified(user.id);
    db.DeleteToken(token);
    r := Ok(Verified(user.id));
  }

  /** `verify_email` as the file stands: the two user lookups name a module
      the router never imports and the link reads a setting the configuration
      has commented out, so every known token ends in a server error, and an
      expired one leaves its fresh, never-mailed token behind, undeleted
      beside the old one. */
  method VerifyEmailAsWritten(db: Db, tasks: BackgroundTasks, token: Uuid, now: Time)
    returns (r: Result<Verification, Failure>)
    requires db.Valid()
    modifies db
    ensures db.Valid()
    ensures token !in old(db.tokens) <==> r == Err(InvalidToken)
    ensures token in old(db.tokens) ==> r == Err(ServerError)
    ensures !(token in old(db.tokens) && old(db.tokens)[token].expiresAt < now) ==> unchanged(db)
    ensures token in old(db.tokens) && old(db.tokens)[token].expiresAt < now ==>
              && db.users == old(db.users)
              && token in db.tokens
              && exists t :: t !in old(db.tokens) && t in db.tokens
                   && db.tokens == old(db.tokens)[t := EmailVerificationToken(t, old(db.tokens)[token].userId,
                                                         now + VERIFICATION_TOKEN_EXPIRE_MINUTES, now)]
    ensures db.jobs == old(db.jobs) && db.apps == old(db.apps)
  {
    var record := db.GetToken(token);
    if record.None? {
      return Err(InvalidToken);
    }
    var rec := record.value;
    if rec.expiresAt < now {
      var newToken := db.CreateEmailToken(rec.userId, now);
      return Err(ServerError);   // NameError on `models` before the mail and the delete
    }
    r := Err(ServerError);       // NameError on `models` at the user lookup
  }

  // ---- Login ----

  /** The claims login signs: the user's id and role name. */
  function LoginClaims(u: User): (c: Payload)
    ensures c.Keys == {"user_id", "role"}
    ensures c["user_id"] == ClaimId(u.id) && c["role"] == ClaimText(RoleName(u.role))
  {
    map["user_id" := ClaimId(u.id), "role" := ClaimText(RoleName(u.role))]
  }

  datatype LoginOk = LoginOk(accessToken: string, tokenType: string)

  /** `login`: an unknown e-mail and a wrong password get the same refusal;
      otherwise a bearer token over the user's claims with the default
      lifetime. Login does not look at the verification flag. */
  method Login(db: Db, email: string, password: string, verify: (string, string) -> bool,
               encode: Payload -> string, now: Time) returns (r: Result<LoginOk, Failure>)
    requires db.Valid()
    ensures r.Err? ==> r.error == InvalidCredentials
    ensures r.Ok? <==> exists id :: id in db.users && db.users[id].email == email
                                    && verify(password, db.users[id].passwordHash)
    ensures r.Ok? ==> exists id :: id in db.users && db.users[id].email == email
                        && r.value == LoginOk(encode(AccessTokenPayload(LoginClaims(db.users[id]), None, now)), "bearer")
  {
    var user := db.GetUserByEmail(email);
    if user.None? {
      return Err(InvalidCredentials);
    }
    var u := user.value;
    if !verify(password, u.passwordHash) {
      return Err(InvalidCredentials);
    }
    r := Ok(LoginOk(encode(AccessTokenPayload(LoginClaims(u), None, now)), "bearer"));
  }

  /** A token issued at login, once decoded, authenticates exactly the user
      it was issued for and passes that user's role gate; its `exp` claim
      lies 60 minutes after issue. */
  lemma LoginTokenAuthenticates(users: map<Uuid, User>, u: User, now: Time)
    requires u.id in users && users[u.id] == u
    ensures var p := AccessTokenPayload(LoginClaims(u), None, now);
            && GetCurrentUser(Some(p), users) == Ok(u)
            && RequireRole(RoleName(u.role), Some(p), users) == Ok(u)
            && p["exp"] == ClaimTime(now + ACCESS_TOKEN_EXPIRE_MINUTES)
  {
    var p := AccessTokenPayload(LoginClaims(u), None, now);
    assert "user_id" in p.Keys;
  }
}

/**
 * The account-security handlers of server/controllers/authController.js over a
 * user store in which `User.findOne({ email })` is a lookup by exact address.
 *
 * Each handler is given twice: a function `...Outcome` of the store before the
 * request, which carries the handler's promises as its contract, and a method
 * of `AuthController` that performs the same steps on the store one field
 * assignment and one `save()` at a time and is proved to end in that outcome.
 *
 * The world outside the handler is an input: `now` is `Date.now()`, `x` is
 * `Math.random()`, `hashed` is what `bcrypt.hash` returned, `compare` is
 * `bcrypt.compare`, `mailError` is `None` when `sendMail` resolved and
 * `Some(message)` when it threw, and a token is the outcome of `jwt.verify`.
 */
module Auth {
  import opened Wrappers
  import opened Http
  import opened OtpCode
  import opened JsStrings
  import opened EmailTemplates
  import opened UserModel

  /** Lifetime of a verification code: 24 hours in milliseconds. */
  const VERIFY_OTP_TTL: int := 24 * 60 * 60 * 1000
  /** Lifetime of a reset code: 15 minutes in milliseconds. */
  const RESET_OTP_TTL: int := 15 * 60 * 1000

  /** Which of the two templates a mail is built from. */
  datatype MailKind = Verification | PasswordReset

  /**
   * A mail a handler hands to `sendMail`: the recipient, the template, and the
   * code and address the template is filled with.
   */
  datatype Mail = Mail(to: string, kind: MailKind, code: string, email: string)

  /** What one request leaves behind: the reply, the store, the cookie and the mail it tried to send. */
  datatype Outcome = Outcome(reply: Reply, users: map<string, User>, cookie: Cookie, mail: Option<Mail>)

  /** A stored record as the handlers keep it. */
  predicate UserValid(key: string, u: User)
  {
    && u.email == key
    && SatisfiesSchema(u)
    && WellFormedCode(u.verifyOtp)
    && WellFormedCode(u.resetOtp)
    && (u.isAccountVerified ==> u.verifyOtp == "" && u.verifyOtpExpireAt == 0)
  }

  /** Every record sits under its own address and is kept as UserValid says. */
  predicate StoreValid(users: map<string, User>)
  {
    forall e :: e in users ==> UserValid(e, users[e])
  }

  /** Where a one-time code check fails, in the order the handlers test. */
  datatype OtpCheck = InvalidOtp | ExpiredOtp | Accepted

  /**
   * The guard of `verifyEmail` and `resetPassword`: an absent or different
   * code is refused before the expiry is looked at, and the code is still good
   * at the very millisecond it expires.
   */
  function CheckOtp(stored: string, expireAt: int, candidate: string, now: int): (r: OtpCheck)
    ensures r == InvalidOtp <==> stored == "" || stored != candidate
    ensures r == ExpiredOtp <==> stored != "" && stored == candidate && expireAt < now
    ensures r == Accepted <==> candidate != "" && candidate == stored && now <= expireAt
  {
    if stored == "" || stored != candidate then InvalidOtp
    else if expireAt < now then ExpiredOtp
    else Accepted
  }

  /** The verification mail a handler sends: to `to`, the code, and the address the template is filled with. */
  function VerificationMail(to: string, code: string, email: string): Mail
  {
    Mail(to, Verification, code, email)
  }

  /** The reset mail a handler sends. */
  function ResetMail(to: string, code: string, email: string): Mail
  {
    Mail(to, PasswordReset, code, email)
  }

  /** The HTML body of a mail: its template with `replace("{{otp}}", code).replace("{{email}}", email)`. */
  function Html(m: Mail): string
  {
    match m.kind
    case Verification => MailBody(EMAIL_VERIFY_TEMPLATE, m.code, m.email)
    case PasswordReset => MailBody(PASSWORD_RESET_TEMPLATE, m.code, m.email)
  }

  /** A verification mail carries the six-digit code in the template's slot, and nothing else changes in the text. */
  lemma VerificationMailCarriesCode(to: string, code: string, email: string)
    requires IsOtpCode(code)
    ensures Html(VerificationMail(to, code, email)) == VERIFY_HEAD + code + VERIFY_TAIL
  {
    DigitsHaveNoBrace(code);
    VerifyMailBody(code, email);
  }

  /** A reset mail carries the six-digit code in the template's slot. */
  lemma ResetMailCarriesCode(to: string, code: string, email: string)
    requires IsOtpCode(code)
    ensures Html(ResetMail(to, code, email)) == RESET_HEAD + code + RESET_TAIL
  {
    DigitsHaveNoBrace(code);
    ResetMailBody(code, email);
  }

  /** The reset mail tells the reader how long the code is good for. */
  lemma ResetMailStatesLifetime(to: string, code: string, email: string)
    requires IsOtpCode(code)
    ensures Includes(Html(ResetMail(to, code, email)), RESET_VALIDITY)
  {
    DigitsHaveNoBrace(code);
    EmailTemplates.ResetMailStatesValidity(code, email);
  }

  /** What the reset mail promises, "valid for 15 minutes", is the lifetime `sendResetOTP` gives the code. */
  lemma ResetValidityMatchesTtl()
    ensures RESET_VALIDITY == "valid for " + DecimalString(RESET_OTP_TTL / 60000) + " minutes"
  {
    assert DecimalString(15) == DecimalString(1) + [DigitChar(5)];
  }

  lemma DigitsHaveNoBrace(s: string)
    requires AllDigits(s)
    ensures '{' !in s
  {
    forall i | 0 <= i < |s| ensures s[i] != '{' {
      assert '0' <= s[i] <= '9';
    }
  }

  /** The record after a verification code is (re)issued at `now`. */
  function WithVerifyCode(u: User, x: real, now: int): (v: User)
    requires 0.0 <= x < 1.0
    ensures v == u.(verifyOtp := v.verifyOtp, verifyOtpExpireAt := v.verifyOtpExpireAt)
    ensures IsOtpCode(v.verifyOtp) && v.verifyOtp == OtpOf(x)
    ensures v.verifyOtpExpireAt == now + VERIFY_OTP_TTL
  {
    OtpIsSixDigits(x);
    u.(verifyOtp := OtpOf(x), verifyOtpExpireAt := now + VERIFY_OTP_TTL)
  }

  /** The reply of a handler whose last step is a mail: the catch block's when `sendMail` threw. */
  function AfterMail(mailError: Option<string>, sent: Reply): (r: Reply)
    ensures mailError.None? ==> r == sent
    ensures mailError.Some? ==> r == Reply(false, mailError.value, false)
  {
    match mailError
    case None => sent
    case Some(message) => Reply(false, message, false)
  }

  /**
   * `register` (authController.js:7-63). A request with a field missing, and a
   * request for an address that is already verified, change nothing. An
   * unverified address gets a fresh code and no second record. A new address
   * gets a new record with the schema defaults and a fresh code. The code is
   * stored before the mail goes out, so a failing mail only changes the reply.
   */
  function RegisterOutcome(users: map<string, User>, name: string, email: string, password: string,
                           hashed: string, newId: string, x: real, now: int, mailError: Option<string>): (r: Outcome)
    requires 0.0 <= x < 1.0 && hashed != ""
    ensures r.cookie == NoCookie
    ensures StoreValid(users) ==> StoreValid(r.users)
    ensures forall e :: e in users ==> e in r.users
    ensures forall e :: e in r.users && e != email ==> e in users && r.users[e] == users[e]
    ensures name == "" || email == "" || password == "" ==>
              r.reply == Reply(false, "Missing Details", false) && r.users == users && r.mail == None
    ensures name != "" && email != "" && password != "" && email in users && users[email].isAccountVerified ==>
              r.reply == Reply(false, "User already exists", false) && r.users == users && r.mail == None
    ensures name != "" && email != "" && password != "" && email in users && !users[email].isAccountVerified ==>
              && r.users.Keys == users.Keys
              && r.users[email] == WithVerifyCode(users[email], x, now)
              && r.reply == AfterMail(mailError, Reply(true, "Account exists but unverified. OTP resent.", true))
    ensures name != "" && email != "" && password != "" && email !in users ==>
              && r.users == users[email := WithVerifyCode(NewUser(newId, name, email, hashed), x, now)]
              && r.reply == AfterMail(mailError, Reply(true, "Registration successful. Please verify your email.", false))
    ensures r.mail.Some? <==> name != "" && email != "" && password != "" && email in r.users && !r.users[email].isAccountVerified
    ensures r.mail.Some? ==> r.mail.value == VerificationMail(email, r.users[email].verifyOtp, r.users[email].email)
  {
    if name == "" || email == "" || password == "" then
      Outcome(Reply(false, "Missing Details", false), users, NoCookie, None)
    else if email in users && users[email].isAccountVerified then
      Outcome(Reply(false, "User already exists", false), users, NoCookie, None)
    else if email in users then
      var u := WithVerifyCode(users[email], x, now);
      Outcome(AfterMail(mailError, Reply(true, "Account exists but unverified. OTP resent.", true)),
              users[email := u], NoCookie, Some(VerificationMail(email, u.verifyOtp, u.email)))
    else
      var u := WithVerifyCode(NewUser(newId, name, email, hashed), x, now);
      Outcome(AfterMail(mailError, Reply(true, "Registration successful. Please verify your email.", false)),
              users[email := u], NoCookie, Some(VerificationMail(email, u.verifyOtp, u.email)))
  }

  /**
   * `login` (authController.js:65-118), checks in this order: missing field,
   * unknown address, wrong password, unverified account. Only a verified
   * account with the right password gets a session cookie, and nothing is
   * written then; an unverified one has its code reissued instead.
   */
  function LoginOutcome(users: map<string, User>, compare: (string, string) -> bool, email: string, password: string,
                        x: real, now: int, mailError: Option<string>): (r: Outcome)
    requires 0.0 <= x < 1.0
    ensures StoreValid(users) ==> StoreValid(r.users)
    ensures r.users.Keys == users.Keys
    ensures forall e :: e in users && e != email ==> r.users[e] == users[e]
    ensures email == "" || password == "" ==>
              r.reply == Reply(false, "Email and Password are required", false)
              && r.users == users && r.mail == None && r.cookie == NoCookie
    ensures email != "" && password != "" && email !in users ==>
              r.reply == Reply(false, "Invalid email", false)
              && r.users == users && r.mail == None && r.cookie == NoCookie
    ensures email != "" && password != "" && email in users && !compare(password, users[email].password) ==>
              r.reply == Reply(false, "Invalid Password", false)
              && r.users == users && r.mail == None && r.cookie == NoCookie
    ensures email != "" && password != "" && email in users && compare(password, users[email].password)
              && !users[email].isAccountVerified ==>
              && r.users[email] == WithVerifyCode(users[email], x, now)
              && r.reply == AfterMail(mailError, Reply(false, "Please verify your account. OTP sent.", true))
              && r.mail == Some(VerificationMail(email, r.users[email].verifyOtp, r.users[email].email))
    ensures r.cookie != NoCookie <==>
              email != "" && password != "" && email in users && compare(password, users[email].password)
              && users[email].isAccountVerified
    ensures r.cookie != NoCookie ==>
              && r.cookie == SetToken(users[email].id, SESSION_MAX_AGE)
              && r.reply == Reply(true, "Logged in successfully", false)
              && r.users == users && r.mail == None
  {
    if email == "" || password == "" then
      Outcome(Reply(false, "Email and Password are required", false), users, NoCookie, None)
    else if email !in users then
      Outcome(Reply(false, "Invalid email", false), users, NoCookie, None)
    else if !compare(password, users[email].password) then
      Outcome(Reply(false, "Invalid Password", false), users, NoCookie, None)
    else if !users[email].isAccountVerified then
      var u := WithVerifyCode(users[email], x, now);
      Outcome(AfterMail(mailError, Reply(false, "Please verify your account. OTP sent.", true)),
              users[email := u], NoCookie, Some(VerificationMail(email, u.verifyOtp, u.email)))
    else
      Outcome(Reply(true, "Logged in successfully", false), users, SetToken(users[email].id, SESSION_MAX_AGE), None)
  }

  /** `logout` (authController.js:120-133): the cookie is cleared and the store is left alone. */
  function LogoutOutcome(users: map<string, User>): (r: Outcome)
    ensures r.users == users && r.cookie == ClearToken && r.mail == None
    ensures r.reply.success
  {
    Outcome(Reply(true, "Logged Out", false), users, ClearToken, None)
  }

  /**
   * `sendVerifyOtp` (authController.js:135-175). The address is not checked
   * for presence first. An unknown or already verified address changes
   * nothing; otherwise the verification code is reissued and mailed.
   */
  function SendVerifyOtpOutcome(users: map<string, User>, email: string, x: real, now: int,
                                mailError: Option<string>): (r: Outcome)
    requires 0.0 <= x < 1.0
    ensures r.cookie == NoCookie
    ensures StoreValid(users) ==> StoreValid(r.users)
    ensures r.users.Keys == users.Keys
    ensures forall e :: e in users && e != email ==> r.users[e] == users[e]
    ensures email !in users ==> r.reply == Reply(false, "User not found", false) && r.users == users && r.mail == None
    ensures email in users && users[email].isAccountVerified ==>
              r.reply == Reply(false, "Account Already verified", false) && r.users == users && r.mail == None
    ensures email in users && !users[email].isAccountVerified ==>
              && r.users[email] == WithVerifyCode(users[email], x, now)
              && r.reply == AfterMail(mailError, Reply(true, "Verification OTP Sent on Email", false))
              && r.mail == Some(VerificationMail(r.users[email].email, r.users[email].verifyOtp, r.users[email].email))
  {
    if email !in users then
      Outcome(Reply(false, "User not found", false), users, NoCookie, None)
    else if users[email].isAccountVerified then
      Outcome(Reply(false, "Account Already verified", false), users, NoCookie, None)
    else
      var u := WithVerifyCode(users[email], x, now);
      Outcome(AfterMail(mailError, Reply(true, "Verification OTP Sent on Email", false)),
              users[email := u], NoCookie, Some(VerificationMail(u.email, u.verifyOtp, u.email)))
  }

  /**
   * `verifyEmail` (authController.js:177-220). A matching, unexpired code
   * verifies the account, consumes the code and opens a session; every other
   * request changes nothing.
   */
  function VerifyEmailOutcome(users: map<string, User>, email: string, otp: string, now: int): (r: Outcome)
    ensures StoreValid(users) ==> StoreValid(r.users)
    ensures r.users.Keys == users.Keys && r.mail == None
    ensures forall e :: e in users && e != email ==> r.users[e] == users[e]
    ensures email == "" || otp == "" ==> r.reply == Reply(false, "Missing Details", false)
    ensures email != "" && otp != "" && email !in users ==> r.reply == Reply(false, "User not found", false)
    ensures email != "" && email in users && CheckOtp(users[email].verifyOtp, users[email].verifyOtpExpireAt, otp, now) == InvalidOtp ==>
              r.reply == Reply(false, if otp == "" then "Missing Details" else "Invalid OTP", false)
    ensures email != "" && email in users && CheckOtp(users[email].verifyOtp, users[email].verifyOtpExpireAt, otp, now) == ExpiredOtp ==>
              r.reply == Reply(false, "OTP Expired", false)
    ensures r.reply.success <==>
              email != "" && email in users && CheckOtp(users[email].verifyOtp, users[email].verifyOtpExpireAt, otp, now) == Accepted
    ensures !r.reply.success ==> r.users == users && r.cookie == NoCookie
    ensures r.reply.success ==>
              && r.users[email] == users[email].(isAccountVerified := true, verifyOtp := "", verifyOtpExpireAt := 0)
              && r.cookie == SetToken(users[email].id, SESSION_MAX_AGE)
              && r.reply == Reply(true, "Email verified successfully", false)
  {
    if email == "" || otp == "" then
      Outcome(Reply(false, "Missing Details", false), users, NoCookie, None)
    else if email !in users then
      Outcome(Reply(false, "User not found", false), users, NoCookie, None)
    else
      var u := users[email];
      match CheckOtp(u.verifyOtp, u.verifyOtpExpireAt, otp, now)
      case InvalidOtp => Outcome(Reply(false, "Invalid OTP", false), users, NoCookie, None)
      case ExpiredOtp => Outcome(Reply(false, "OTP Expired", false), users, NoCookie, None)
      case Accepted =>
        Outcome(Reply(true, "Email verified successfully", false),
                users[email := u.(isAccountVerified := true, verifyOtp := "", verifyOtpExpireAt := 0)],
                SetToken(u.id, SESSION_MAX_AGE), None)
  }

  /**
   * `isAuthenticated` (authController.js:222-251): a session holds only for a
   * present token that verifies to claims with an `id`.
   */
  function IsAuthenticated(token: string, check: TokenCheck): (r: Reply)
    ensures r.success <==> token != "" && check.Decoded? && check.id != ""
    ensures token == "" ==> r.message == NOT_AUTHORIZED
    ensures token != "" && check.Threw? ==> r.message == check.message
    ensures token != "" && check.Decoded? && check.id == "" ==> r.message == NOT_AUTHORIZED
    ensures !r.isUnverified
  {
    if token == "" then Reply(false, NOT_AUTHORIZED, false)
    else match check
      case Threw(message) => Reply(false, message, false)
      case Decoded(id) => if id != "" then Reply(true, "", false) else Reply(false, NOT_AUTHORIZED, false)
  }

  /** The record after a reset code is issued at `now`. */
  function WithResetCode(u: User, x: real, now: int): (v: User)
    requires 0.0 <= x < 1.0
    ensures v == u.(resetOtp := v.resetOtp, resetOtpExpireAt := v.resetOtpExpireAt)
    ensures IsOtpCode(v.resetOtp) && v.resetOtp == OtpOf(x)
    ensures v.resetOtpExpireAt == now + RESET_OTP_TTL
  {
    OtpIsSixDigits(x);
    u.(resetOtp := OtpOf(x), resetOtpExpireAt := now + RESET_OTP_TTL)
  }

  /**
   * `sendResetOTP` (authController.js:253-285): for a known address only the
   * two reset fields are written, then the reset mail is sent.
   */
  function SendResetOtpOutcome(users: map<string, User>, email: string, x: real, now: int,
                               mailError: Option<string>): (r: Outcome)
    requires 0.0 <= x < 1.0
    ensures r.cookie == NoCookie
    ensures StoreValid(users) ==> StoreValid(r.users)
    ensures r.users.Keys == users.Keys
    ensures forall e :: e in users && e != email ==> r.users[e] == users[e]
    ensures email == "" ==> r.reply == Reply(false, "Email is required", false) && r.users == users && r.mail == None
    ensures email != "" && email !in users ==> r.reply == Reply(false, "User not found", false) && r.users == users && r.mail == None
    ensures email != "" && email in users ==>
              && r.users[email] == WithResetCode(users[email], x, now)
              && r.reply == AfterMail(mailError, Reply(true, "OTP sent to your email", false))
              && r.mail == Some(ResetMail(r.users[email].email, r.users[email].resetOtp, r.users[email].email))
  {
    if email == "" then
      Outcome(Reply(false, "Email is required", false), users, NoCookie, None)
    else if email !in users then
      Outcome(Reply(false, "User not found", false), users, NoCookie, None)
    else
      var u := WithResetCode(users[email], x, now);
      Outcome(AfterMail(mailError, Reply(true, "OTP sent to your email", false)),
              users[email := u], NoCookie, Some(ResetMail(u.email, u.resetOtp, u.email)))
  }

  /**
   * `resetPassword` (authController.js:287-320). A matching, unexpired reset
   * code replaces the password hash and is consumed; verification state is
   * untouched and no session is opened.
   */
  function ResetPasswordOutcome(users: map<string, User>, email: string, otp: string, newPassword: string,
                                hashed: string, now: int): (r: Outcome)
    requires hashed != ""
    ensures StoreValid(users) ==> StoreValid(r.users)
    ensures r.users.Keys == users.Keys && r.cookie == NoCookie && r.mail == None
    ensures forall e :: e in users && e != email ==> r.users[e] == users[e]
    ensures email == "" || otp == "" || newPassword == "" ==>
              r.reply == Reply(false, "Email, OTP and new password are required", false)
    ensures email != "" && otp != "" && newPassword != "" && email !in users ==>
              r.reply == Reply(false, "User not found", false)
    ensures email != "" && otp != "" && newPassword != "" && email in users ==>
              r.reply == match CheckOtp(users[email].resetOtp, users[email].resetOtpExpireAt, otp, now)
                         case InvalidOtp => Reply(false, "Invalid OTP", false)
                         case ExpiredOtp => Reply(false, "OTP Expired", false)
                         case Accepted => Reply(true, "Password has been reset successfully.", false)
    ensures r.reply.success <==>
              email != "" && newPassword != "" && email in users
              && CheckOtp(users[email].resetOtp, users[email].resetOtpExpireAt, otp, now) == Accepted
    ensures !r.reply.success ==> r.users == users
    ensures r.reply.success ==>
              r.users[email] == users[email].(password := hashed, resetOtp := "", resetOtpExpireAt := 0)
  {
    if email == "" || otp == "" || newPassword == "" then
      Outcome(Reply(false, "Email, OTP and new password are required", false), users, NoCookie, None)
    else if email !in users then
      Outcome(Reply(false, "User not found", false), users, NoCookie, None)
    else
      var u := users[email];
      match CheckOtp(u.resetOtp, u.resetOtpExpireAt, otp, now)
      case InvalidOtp => Outcome(Reply(false, "Invalid OTP", false), users, NoCookie, None)
      case ExpiredOtp => Outcome(Reply(false, "OTP Expired", false), users, NoCookie, None)
      case Accepted =>
        Outcome(Reply(true, "Password has been reset successfully.", false),
                users[email := u.(password := hashed, resetOtp := "", resetOtpExpireAt := 0)], NoCookie, None)
  }

  /** A record fresh from `new User(...)` accepts no code of either kind until one is issued. */
  lemma NewUserAcceptsNoCode(id: string, name: string, email: string, password: string, code: string, now: int)
    ensures CheckOtp(NewUser(id, name, email, password).verifyOtp, NewUser(id, name, email, password).verifyOtpExpireAt, code, now) == InvalidOtp
    ensures CheckOtp(NewUser(id, name, email, password).resetOtp, NewUser(id, name, email, password).resetOtpExpireAt, code, now) == InvalidOtp
  {
  }

  /**
   * Write before send: when `sendMail` throws, the reply turns into the
   * error, but the store and the mail attempted are those of a sent mail.
   */
  lemma MailFailureKeepsCode(users: map<string, User>, name: string, email: string, password: string,
                             hashed: string, newId: string, compare: (string, string) -> bool,
                             x: real, now: int, error: string)
    requires 0.0 <= x < 1.0 && hashed != ""
    ensures var sent := RegisterOutcome(users, name, email, password, hashed, newId, x, now, None);
            var failed := RegisterOutcome(users, name, email, password, hashed, newId, x, now, Some(error));
            failed.users == sent.users && failed.mail == sent.mail
            && (failed.mail.Some? ==> failed.reply == Reply(false, error, false))
    ensures var sent := LoginOutcome(users, compare, email, password, x, now, None);
            var failed := LoginOutcome(users, compare, email, password, x, now, Some(error));
            failed.users == sent.users && failed.mail == sent.mail
            && (failed.mail.Some? ==> failed.reply == Reply(false, error, false))
    ensures var sent := SendVerifyOtpOutcome(users, email, x, now, None);
            var failed := SendVerifyOtpOutcome(users, email, x, now, Some(error));
            failed.users == sent.users && failed.mail == sent.mail
            && (failed.mail.Some? ==> failed.reply == Reply(false, error, false))
    ensures var sent := SendResetOtpOutcome(users, email, x, now, None);
            var failed := SendResetOtpOutcome(users, email, x, now, Some(error));
            failed.users == sent.users && failed.mail == sent.mail
            && (failed.mail.Some? ==> failed.reply == Reply(false, error, false))
  {
  }

  /**
   * A verification code can be consumed once: after `verifyEmail` accepted it,
   * the same code is refused as "Invalid OTP" at any later time.
   */
  lemma VerifyCodeSingleUse(users: map<string, User>, email: string, otp: string, now: int, later: int)
    requires VerifyEmailOutcome(users, email, otp, now).reply.success
    ensures VerifyEmailOutcome(VerifyEmailOutcome(users, email, otp, now).users, email, otp, later).reply
            == Reply(false, "Invalid OTP", false)
  {
  }

  /** A reset code can be consumed once, too. */
  lemma ResetCodeSingleUse(users: map<string, User>, email: string, otp: string, newPassword: string,
                           hashed: string, again: string, hashedAgain: string, now: int, later: int)
    requires hashed != "" && hashedAgain != "" && again != ""
    requires ResetPasswordOutcome(users, email, otp, newPassword, hashed, now).reply.success
    ensures ResetPasswordOutcome(ResetPasswordOutcome(users, email, otp, newPassword, hashed, now).users,
                                 email, otp, again, hashedAgain, later).reply
            == Reply(false, "Invalid OTP", false)
  {
  }

  /**
   * Reissuing a verification code invalidates the previous one: once
   * `sendVerifyOtp` has stored a different code, the old one is "Invalid OTP".
   */
  lemma ReissueReplacesCode(users: map<string, User>, email: string, x: real, now: int,
                            mailError: Option<string>, later: int)
    requires 0.0 <= x < 1.0
    requires email != "" && email in users && !users[email].isAccountVerified
    requires users[email].verifyOtp != "" && users[email].verifyOtp != OtpOf(x)
    ensures VerifyEmailOutcome(SendVerifyOtpOutcome(users, email, x, now, mailError).users,
                               email, users[email].verifyOtp, later).reply
            == Reply(false, "Invalid OTP", false)
  {
  }

  /**
   * The verification round trip: after `sendVerifyOtp` for an unverified
   * account, `verifyEmail` with the mailed code succeeds exactly until 24 hours
   * have passed, whether or not the mail itself went out.
   */
  lemma VerificationRoundTrip(users: map<string, User>, email: string, x: real, now: int,
                              mailError: Option<string>, later: int)
    requires 0.0 <= x < 1.0
    requires email != "" && email in users && !users[email].isAccountVerified
    ensures var sent := SendVerifyOtpOutcome(users, email, x, now, mailError);
            && sent.mail.Some?
            && (VerifyEmailOutcome(sent.users, email, sent.mail.value.code, later).reply.success
                <==> later <= now + VERIFY_OTP_TTL)
  {
    OtpIsSixDigits(x);
  }

  /**
   * The reset round trip: after `sendResetOTP`, `resetPassword` with the
   * mailed code succeeds exactly until 15 minutes have passed, and then only
   * the password hash and the reset fields have changed.
   */
  lemma ResetRoundTrip(users: map<string, User>, email: string, x: real, now: int, mailError: Option<string>,
                       newPassword: string, hashed: string, later: int)
    requires 0.0 <= x < 1.0 && hashed != "" && newPassword != ""
    requires email != "" && email in users
    ensures var sent := SendResetOtpOutcome(users, email, x, now, mailError);
            var done := ResetPasswordOutcome(sent.users, email, sent.mail.value.code, newPassword, hashed, later);
            && sent.mail.Some?
            && (done.reply.success <==> later <= now + RESET_OTP_TTL)
            && (done.reply.success ==>
                  done.users == users[email := users[email].(password := hashed, resetOtp := "", resetOtpExpireAt := 0)])
  {
    OtpIsSixDigits(x);
  }

  /**
   * After the password was reset, `login` with the new password opens a
   * session for a verified account, given that `bcrypt.compare` accepts the
   * new password against its own hash.
   */
  lemma LoginAfterReset(users: map<string, User>, compare: (string, string) -> bool, email: string,
                        otp: string, newPassword: string, hashed: string, now: int,
                        x: real, later: int, mailError: Option<string>)
    requires 0.0 <= x < 1.0 && hashed != "" && compare(newPassword, hashed)
    requires ResetPasswordOutcome(users, email, otp, newPassword, hashed, now).reply.success
    requires users[email].isAccountVerified
    ensures LoginOutcome(ResetPasswordOutcome(users, email, otp, newPassword, hashed, now).users,
                         compare, email, newPassword, x, later, mailError).cookie
            == SetToken(users[email].id, SESSION_MAX_AGE)
  {
  }

  /**
   * `verifyEmail` logs the user in, and from then on `login` with the right
   * password opens a session instead of reissuing a code.
   */
  lemma LoginAfterVerification(users: map<string, User>, compare: (string, string) -> bool, email: string,
                               otp: string, password: string, now: int, x: real, later: int,
                               mailError: Option<string>)
    requires 0.0 <= x < 1.0 && password != ""
    requires VerifyEmailOutcome(users, email, otp, now).reply.success
    requires compare(password, users[email].password)
    ensures var verified := VerifyEmailOutcome(users, email, otp, now);
            var login := LoginOutcome(verified.users, compare, email, password, x, later, mailError);
            && verified.cookie == SetToken(users[email].id, SESSION_MAX_AGE)
            && login.cookie == verified.cookie
            && login.users == verified.users
  {
  }

  /**
   * The handlers over one user collection. `users` maps each address to its
   * record; `compare` is `bcrypt.compare(plain, hash)`.
   */
  class AuthController {
    var users: map<string, User>
    const compare: (string, string) -> bool

    ghost predicate Valid()
      reads this
    {
      StoreValid(users)
    }

    constructor (compare: (string, string) -> bool)
      ensures Valid() && users == map[] && this.compare == compare
    {
      users := map[];
      this.compare := compare;
    }

    /** `register`; `hashed` is `bcrypt.hash(password, 10)` and `newId` the new record's ObjectId. */
    method Register(name: string, email: string, password: string, hashed: string, newId: string,
                    x: real, now: int, mailError: Option<string>) returns (reply: Reply, mail: Option<Mail>)
      requires Valid() && 0.0 <= x < 1.0 && hashed != ""
      modifies this
      ensures Valid()
      ensures var o := RegisterOutcome(old(users), name, email, password, hashed, newId, x, now, mailError);
              users == o.users && reply == o.reply && mail == o.mail
    {
      mail := None;
      if name == "" || email == "" || password == "" {
        return Reply(false, "Missing Details", false), None;
      }
      if email in users {
        var existingUser := users[email];
        if existingUser.isAccountVerified {
          return Reply(false, "User already exists", false), None;
        }
        var otp := OtpOf(x);
        OtpIsSixDigits(x);
        existingUser := existingUser.(verifyOtp := otp);
        existingUser := existingUser.(verifyOtpExpireAt := now + VERIFY_OTP_TTL);
        users := users[email := existingUser];
        mail := Some(VerificationMail(email, otp, existingUser.email));
        if mailError.Some? {
          return Reply(false, mailError.value, false), mail;
        }
        return Reply(true, "Account exists but unverified. OTP resent.", true), mail;
      }
      var user := NewUser(newId, name, email, hashed);
      users := users[email := user];
      var otp := OtpOf(x);
      OtpIsSixDigits(x);
      user := user.(verifyOtp := otp);
      user := user.(verifyOtpExpireAt := now + VERIFY_OTP_TTL);
      users := users[email := user];
      mail := Some(VerificationMail(email, otp, user.email));
      if mailError.Some? {
        return Reply(false, mailError.value, false), mail;
      }
      reply := Reply(true, "Registration successful. Please verify your email.", false);
    }

    /** `login`. */
    method Login(email: string, password: string, x: real, now: int, mailError: Option<string>)
      returns (reply: Reply, cookie: Cookie, mail: Option<Mail>)
      requires Valid() && 0.0 <= x < 1.0
      modifies this
      ensures Valid()
      ensures var o := LoginOutcome(old(users), compare, email, password, x, now, mailError);
              users == o.users && reply == o.reply && cookie == o.cookie && mail == o.mail
    {
      cookie, mail := NoCookie, None;
      if email == "" || password == "" {
        return Reply(false, "Email and Password are required", false), cookie, mail;
      }
      if email !in users {
        return Reply(false, "Invalid email", false), cookie, mail;
      }
      var user := users[email];
      var isMatch := compare(password, user.password);
      if !isMatch {
        return Reply(false, "Invalid Password", false), cookie, mail;
      }
      if !user.isAccountVerified {
        var otp := OtpOf(x);
        OtpIsSixDigits(x);
        user := user.(verifyOtp := otp);
        user := user.(verifyOtpExpireAt := now + VERIFY_OTP_TTL);
        users := users[email := user];
        mail := Some(VerificationMail(email, otp, user.email));
        if mailError.Some? {
          return Reply(false, mailError.value, false), cookie, mail;
        }
        return Reply(false, "Please verify your account. OTP sent.", true), cookie, mail;
      }
      cookie := SetToken(user.id, SESSION_MAX_AGE);
      reply := Reply(true, "Logged in successfully", false);
    }

    /** `logout`. */
    method Logout() returns (reply: Reply, cookie: Cookie)
      requires Valid()
      modifies this
      ensures Valid() && users == old(users)
      ensures var o := LogoutOutcome(old(users)); reply == o.reply && cookie == o.cookie
    {
      cookie := ClearToken;
      reply := Reply(true, "Logged Out", false);
    }

    /** `sendVerifyOtp`. */
    method SendVerifyOtp(email: string, x: real, now: int, mailError: Option<string>)
      returns (reply: Reply, mail: Option<Mail>)
      requires Valid() && 0.0 <= x < 1.0
      modifies this
      ensures Valid()
      ensures var o := SendVerifyOtpOutcome(old(users), email, x, now, mailError);
              users == o.users && reply == o.reply && mail == o.mail
    {
      mail := None;
      if email !in users {
        return Reply(false, "User not found", false), mail;
      }
      var user := users[email];
      if user.isAccountVerified {
        return Reply(false, "Account Already verified", false), mail;
      }
      var otp := OtpOf(x);
      OtpIsSixDigits(x);
      user := user.(verifyOtp := otp);
      user := user.(verifyOtpExpireAt := now + VERIFY_OTP_TTL);
      users := users[email := user];
      mail := Some(VerificationMail(user.email, otp, user.email));
      if mailError.Some? {
        return Reply(false, mailError.value, false), mail;
      }
      reply := Reply(true, "Verification OTP Sent on Email", false);
    }

    /** `verifyEmail`. */
    method VerifyEmail(email: string, otp: string, now: int) returns (reply: Reply, cookie: Cookie)
      requires Valid()
      modifies this
      ensures Valid()
      ensures var o := VerifyEmailOutcome(old(users), email, otp, now);
              users == o.users && reply == o.reply && cookie == o.cookie
    {
      cookie := NoCookie;
      if email == "" || otp == "" {
        return Reply(false, "Missing Details", false), cookie;
      }
      if email !in users {
        return Reply(false, "User not found", false), cookie;
      }
      var user := users[email];
      if user.verifyOtp == "" || user.verifyOtp != otp {
        return Reply(false, "Invalid OTP", false), cookie;
      }
      if user.verifyOtpExpireAt < now {
        return Reply(false, "OTP Expired", false), cookie;
      }
      user := user.(isAccountVerified := true);
      user := user.(verifyOtp := "");
      user := user.(verifyOtpExpireAt := 0);
      users := users[email := user];
      cookie := SetToken(user.id, SESSION_MAX_AGE);
      reply := Reply(true, "Email verified successfully", false);
    }

    /** `sendResetOTP`. */
    method SendResetOtp(email: string, x: real, now: int, mailError: Option<string>)
      returns (reply: Reply, mail: Option<Mail>)
      requires Valid() && 0.0 <= x < 1.0
      modifies this
      ensures Valid()
      ensures var o := SendResetOtpOutcome(old(users), email, x, now, mailError);
              users == o.users && reply == o.reply && mail == o.mail
    {
      mail := None;
      if email == "" {
        return Reply(false, "Email is required", false), mail;
      }
      if email !in users {
        return Reply(false, "User not found", false), mail;
      }
      var user := users[email];
      var otp := OtpOf(x);
      OtpIsSixDigits(x);
      user := user.(resetOtp := otp);
      user := user.(resetOtpExpireAt := now + RESET_OTP_TTL);
      users := users[email := user];
      mail := Some(ResetMail(user.email, otp, user.email));
      if mailError.Some? {
        return Reply(false, mailError.value, false), mail;
      }
      reply := Reply(true, "OTP sent to your email", false);
    }

    /** `resetPassword`; `hashed` is `bcrypt.hash(newPassword, 10)`. */
    method ResetPassword(email: string, otp: string, newPassword: string, hashed: string, now: int)
      returns (reply: Reply)
      requires Valid() && hashed != ""
      modifies this
      ensures Valid()
      ensures var o := ResetPasswordOutcome(old(users), email, otp, newPassword, hashed, now);
              users == o.users && reply == o.reply
    {
      if email == "" || otp == "" || newPassword == "" {
        return Reply(false, "Email, OTP and new password are required", false);
      }
      if email !in users {
        return Reply(false, "User not found", false);
      }
      var user := users[email];
      if user.resetOtp == "" || user.resetOtp != otp {
        return Reply(false, "Invalid OTP", false);
      }
      if user.resetOtpExpireAt < now {
        return Reply(false, "OTP Expired", false);
      }
      user := user.(password := hashed);
      user := user.(resetOtp := "");
      user := user.(resetOtpExpireAt := 0);
      users := users[email := user];
      reply := Reply(true, "Password has been reset successfully.", false);
    }
  }
}

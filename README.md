# LMS account security, payment reconciliation and client logic in Dafny

This project models the core of a course marketplace (the LMS repository). It covers:

- **The account-security handlers.** These are `register`, `login`, `logout`, `sendVerifyOtp`, `verifyEmail`, `isAuthenticated`, `sendResetOTP` and `resetPassword`, with their six-digit one-time codes (OTPs), code lifetimes, session cookie and mail bodies.
- **The User record** and the defaults it gets.
- **The two mail templates**, including where their `{{otp}}` and `{{email}}` placeholders are.
- **The Stripe webhook** that enrols a buyer, completes a purchase or fails it.
- **The two route guards**, `protectRoute` and `protectEducator`.
- **The client logic**:
  - the navbar's form reducer, submit checks, six-slot OTP buffer and dialog transitions;
  - the player page's YouTube id extraction, section toggles, rating lookup and completed test;
  - lecture counts and minute totals;
  - the course-title search.

Every handler that changes state step by step is a class method. The class is `Auth.AuthController`, `Webhooks.PaymentStore`, `AuthMiddleware.Exchange`, `Navbar.AuthPanel` or `Player.PlayerPage`. Each method is proved to end in the state described by a pure function of the state before it, such as `RegisterOutcome`, `Reconcile`, `RouteDecision`, `Reduce` or `Toggled`. The handler's promises are proved about those functions: their own `ensures` hold the per-call promises, and lemmas beside them relate several calls. Examples are the verification and reset round trips, the single use of a code, redelivery of a webhook event and idempotence of the search.

The world outside the code is given as inputs:

- `Date.now()` is `now`, in milliseconds.
- `Math.random()` is a real `x` in [0, 1).
- `bcrypt.hash` is its result `hashed`, a non-empty string.
- `bcrypt.compare` is a function field `compare`.
- `transporter.sendMail` is `mailError`: `None` when it resolved, `Some(message)` when it threw.
- `jwt.verify` is a `TokenCheck`: the decoded `id`, or the error message.
- `checkout.sessions.list` is the list of the sessions' `purchaseId` metadata.
- Mongoose lookups are map lookups: users by exact e-mail address in the auth handlers, and records by `_id` in the webhook and the guards.

A request field that is missing or falsy is the empty string.

Files: `wrappers.dfy` (Option), `http.dfy` (reply, cookie, token check), `otp_code.dfy`, `user_model.dfy`, `email_templates.dfy`, `js_strings.dfy` (the JavaScript string built-ins used), `auth_controller.dfy`, `webhooks.dfy`, `auth_middleware.dfy`, `navbar.dfy`, `app_context.dfy`, `player.dfy`, `courses_list.dfy`.

Where the design text and the code disagree, the model follows the code:

- **No webhook idempotency.** The design asks for an idempotent webhook with terminal purchase states and set-like enrolment. The code appends unconditionally and overwrites the status, and `Webhooks.RedeliveryEnrolsTwice` and `Webhooks.FailureAfterCompletion` state what it actually does.
- **Exact-match addresses.** The design calls addresses unique and case-insensitive, but the code looks them up exactly as given.

## Model

| member | source | states |
|---|---|---|
| OtpCode.OtpDraw | server/controllers/authController.js:20 | `Math.floor(100000 + Math.random() * 900000)` is an integer in [100000, 999999] |
| OtpCode.OtpIsSixDigits | server/controllers/authController.js:44 | every generated code is exactly six decimal digits, and reads back as the integer drawn |
| OtpCode.OtpOfInjective | server/controllers/authController.js:156 | two draws of different integers give different codes |
| UserModel.NewUser | server/models/User.js:3-21 | a new record has the names given, role 'student', is unverified, has no pending verification or reset code (`''`, `0`) and no enrolment; it satisfies the schema iff name, email and password are non-empty |
| EmailTemplates.FillTemplate | server/controllers/authController.js:29 | about `MailBody`, the `.replace("{{otp}}", otp).replace("{{email}}", email)` chain: for a template `head + "{{otp}}" + tail` with no brace outside the placeholder, `{{otp}}` occurs exactly at `|head|`, `{{email}}` occurs nowhere, and the two `replace` calls yield `head + otp + tail` for a brace-free code |
| EmailTemplates.VerifyTemplatePlaceholder | server/configs/emailTemplates.js:1-25 | the verification template holds `{{otp}}` exactly once |
| EmailTemplates.VerifyMailBody | server/configs/emailTemplates.js:1-25 | the verification template holds no `{{email}}`, so its `MailBody` is the template with the code in the slot, whatever the address |
| EmailTemplates.ResetTemplatePlaceholder | server/configs/emailTemplates.js:27-51 | the reset template holds `{{otp}}` exactly once |
| EmailTemplates.ResetMailBody | server/configs/emailTemplates.js:27-51 | the reset template holds no `{{email}}`; its `MailBody` is the template with the code in the slot |
| EmailTemplates.ResetMailStatesValidity | server/configs/emailTemplates.js:46 | the filled reset mail still contains "valid for 15 minutes" |
| Auth.CheckOtp | server/controllers/authController.js:190-196 | a code is refused as invalid iff none is stored or it differs, and as expired iff it matches but its expiry is before now; it is accepted at the expiry millisecond itself |
| Auth.WithVerifyCode | server/controllers/authController.js:156-160 | reissuing writes only `verifyOtp` (a six-digit code) and `verifyOtpExpireAt = now + 86400000` |
| Auth.WithResetCode | server/controllers/authController.js:266-270 | issuing a reset code writes only `resetOtp` (a six-digit code) and `resetOtpExpireAt = now + 900000` |
| Auth.AfterMail | server/controllers/authController.js:168-174 | the reply is the success reply when the mail went out, and the catch block's `success:false` with the error otherwise |
| Auth.VerificationMailCarriesCode | server/controllers/authController.js:162-167 | the verification mail body is the template with the six-digit code in place of `{{otp}}` |
| Auth.ResetMailCarriesCode | server/controllers/authController.js:272-277 | the reset mail body is the template with the six-digit code in place of `{{otp}}` |
| Auth.ResetMailStatesLifetime | server/controllers/authController.js:272-277 | the reset mail tells its reader the code is valid for 15 minutes |
| Auth.ResetValidityMatchesTtl | server/controllers/authController.js:269 | the "valid for 15 minutes" of the mail is the lifetime `sendResetOTP` writes, in minutes |
| Auth.RegisterOutcome | server/controllers/authController.js:7-63 | a missing field gives "Missing Details" and a verified address "User already exists", both changing nothing. An unverified address gets a fresh code and `isUnverified`, with no second record. A new address gets a default record with a code. Only that address's record changes, the store invariant is kept, the mail carries the stored code and it is sent exactly when a code was written |
| Auth.LoginOutcome | server/controllers/authController.js:65-118 | the checks run in the code's order: missing fields, 'Invalid email', 'Invalid Password' (each writing nothing, mailing nothing and setting no cookie), then an unverified account, which gets a reissued code with `isUnverified` and no cookie. A cookie with maxAge 7 days is set iff the account is verified and the password matches, and then nothing is written |
| Auth.LogoutOutcome | server/controllers/authController.js:120-133 | the token cookie is cleared, the store is unchanged and the reply is a success |
| Auth.SendVerifyOtpOutcome | server/controllers/authController.js:135-175 | an unknown address gives "User not found" and a verified one 'Account Already verified', both writing nothing. Otherwise the code is reissued for 24 hours and mailed to the record's address |
| Auth.VerifyEmailOutcome | server/controllers/authController.js:177-220 | the reply follows the code's order of checks. It succeeds iff the stored code is accepted, and then the account is verified, the code consumed and a seven-day session cookie set. Every refusal changes nothing |
| Auth.IsAuthenticated | server/controllers/authController.js:222-251 | success iff a token is present and verifies to claims with an id; otherwise the "Not Authorized" message or the verifier's error |
| Auth.SendResetOtpOutcome | server/controllers/authController.js:253-285 | a missing address gives 'Email is required' and an unknown one 'User not found'. Otherwise only the two reset fields are written (15 minutes) and the reset mail goes to the record's address |
| Auth.ResetPasswordOutcome | server/controllers/authController.js:287-320 | the reply follows the code's order of checks, and with all fields present and a known user the whole reply is fixed by the code check: "Invalid OTP", "OTP Expired" or "Password has been reset successfully.". It succeeds iff the reset code is accepted, and then only the password hash and the reset fields change: no cookie, and the verification state is untouched. Every refusal changes nothing |
| Auth.NewUserAcceptsNoCode | server/models/User.js:10-13 | a fresh record accepts no verification or reset code |
| Auth.MailFailureKeepsCode | server/controllers/authController.js:21-32 | in all four mailing handlers a failing `sendMail` changes only the reply: the stored code and the attempted mail are those of a successful send |
| Auth.VerifyCodeSingleUse | server/controllers/authController.js:190-201 | once `verifyEmail` accepted a code, the same code is "Invalid OTP" at any later time |
| Auth.ResetCodeSingleUse | server/controllers/authController.js:300-313 | once `resetPassword` accepted a code, the same code is "Invalid OTP" at any later time |
| Auth.ReissueReplacesCode | server/controllers/authController.js:156-160 | after `sendVerifyOtp` stored a different code, the previous one is "Invalid OTP" |
| Auth.VerificationRoundTrip | server/controllers/authController.js:135-201 | after `sendVerifyOtp` for an unverified account, `verifyEmail` with the mailed code succeeds iff at most 24 hours have passed, whether the mail went out or not |
| Auth.ResetRoundTrip | server/controllers/authController.js:253-315 | after `sendResetOTP`, `resetPassword` with the mailed code succeeds iff at most 15 minutes have passed, and then only the hash and the reset fields of that record changed |
| Auth.LoginAfterReset | server/controllers/authController.js:308-313 | after a reset, a verified user logging in with the new password (accepted by `bcrypt.compare`) gets a session cookie |
| Auth.LoginAfterVerification | server/controllers/authController.js:198-213 | `verifyEmail` sets the session cookie, and a later `login` with the right password gives the same cookie and writes nothing |
| Auth.AuthController.Register | server/controllers/authController.js:7-63 | the step-by-step handler ends in `RegisterOutcome` of the old store and keeps the store invariant |
| Auth.AuthController.Login | server/controllers/authController.js:65-118 | ends in `LoginOutcome` of the old store and keeps the invariant |
| Auth.AuthController.Logout | server/controllers/authController.js:120-133 | ends in `LogoutOutcome`; the store is unchanged |
| Auth.AuthController.SendVerifyOtp | server/controllers/authController.js:135-175 | ends in `SendVerifyOtpOutcome` of the old store and keeps the invariant |
| Auth.AuthController.VerifyEmail | server/controllers/authController.js:177-220 | ends in `VerifyEmailOutcome` of the old store and keeps the invariant |
| Auth.AuthController.SendResetOtp | server/controllers/authController.js:253-285 | ends in `SendResetOtpOutcome` of the old store and keeps the invariant |
| Auth.AuthController.ResetPassword | server/controllers/authController.js:287-320 | ends in `ResetPasswordOutcome` of the old store and keeps the invariant |
| Webhooks.Reconcile | server/controllers/webhooks.js:28-69 | a succeeded event appends the buyer to the course's students and the course to the buyer's courses, and completes the purchase. A failed event only sets the status to failed. Any other event changes nothing. The purchase is that of the first session. An empty session list or an unknown purchase crashes before any write. Referential integrity is kept |
| Webhooks.RedeliveryEnrolsTwice | server/controllers/webhooks.js:42-48 | delivering the same succeeded event twice appends the buyer and the course twice each |
| Webhooks.FailureAfterCompletion | server/controllers/webhooks.js:53-63 | a failed event after completion marks the purchase failed and leaves the enrolment in place |
| Webhooks.CompletionAfterFailure | server/controllers/webhooks.js:30-51 | a succeeded event after a failure completes the purchase |
| Webhooks.PaymentStore.HandleEvent | server/controllers/webhooks.js:28-69 | the handler's writes end in `Reconcile` of the old collections, with its answer, and keep referential integrity |
| AuthMiddleware.RouteDecision | server/middlewares/authMiddleware.js:4-24 | passes iff a token is present and verifies to an id. A missing token or an id-less one is denied "Not Authorized", and a failed verification is denied with its message |
| AuthMiddleware.EducatorDecision | server/middlewares/authMiddleware.js:27-40 | passes iff the user on record has role 'educator'; another role gets 403 'Unauthorized Access' and a missing `req.auth` or record 401 |
| AuthMiddleware.NewUserIsRefusedAsEducator | server/middlewares/authMiddleware.js:32-34 | a freshly registered user is refused with 403 |
| AuthMiddleware.EducatorChain | server/routes/educatorRoutes.js:23-30 | behind `protectRoute`, `protectEducator` passes iff the token's id names an educator on record |
| AuthMiddleware.GuardAgreesWithIsAuthenticated | server/middlewares/authMiddleware.js:4-24 | `protectRoute` passes exactly when `isAuthenticated` answers success, and otherwise gives the same reply |
| AuthMiddleware.Exchange.Settle | server/middlewares/authMiddleware.js:16-22 | a pass calls `next` once and answers nothing; a denial answers once and does not call `next` |
| AuthMiddleware.Exchange.ProtectRoute | server/middlewares/authMiddleware.js:4-24 | on a pass `req.auth.userId` becomes the token's id and `next` is called once; on a denial `req.auth` is unchanged and one reply is written |
| AuthMiddleware.Exchange.ProtectEducator | server/middlewares/authMiddleware.js:27-40 | calls `next` once or writes one reply, as `EducatorDecision` says |
| Navbar.Reduce | client/src/components/student/Navbar.tsx:58-74 | `SET_FIELD` changes only that field, `SET_TOUCHED` only that flag, `RESET` gives the all-empty untouched form, `SET_ALL` takes exactly the payload's keys |
| Navbar.SetFieldLastWins | client/src/components/student/Navbar.tsx:60-61 | setting a field to its own value is no change; of two settings the second wins |
| Navbar.HasSignupErrors | client/src/components/student/Navbar.tsx:91-98 | holds iff the name or address is blank after trimming, the password is empty, or the confirmation differs |
| Navbar.HasLoginErrors | client/src/components/student/Navbar.tsx:100-103 | holds iff the address is blank after trimming or the password is empty |
| Navbar.HasForgotPasswordErrors | client/src/components/student/Navbar.tsx:104-107 | holds iff the address is blank after trimming |
| Navbar.HasResetPasswordErrors | client/src/components/student/Navbar.tsx:108-111 | holds iff the password is empty or the confirmation differs |
| Navbar.EnabledFormsSendRequiredFields | client/src/components/student/Navbar.tsx:91-111 | a form whose check passes sends every field the matching server handler requires |
| Navbar.InitialFormBlocksEverySubmit | client/src/components/student/Navbar.tsx:50-56 | on the initial form every check fails |
| Navbar.EmptySlots | client/src/components/student/Navbar.tsx:252-255 | the buffer starts as six empty slots |
| Navbar.PasteText | client/src/components/student/Navbar.tsx:296 | the paste is a prefix of the text of at most six characters, the whole text when it is short enough |
| Navbar.PastedSlot | client/src/components/student/Navbar.tsx:300-302 | slot `i` gets the i-th of the first six pasted characters, or "" |
| Navbar.PasteThenSubmit | client/src/components/student/Navbar.tsx:522 | after a paste, the submitted code is the first six characters pasted |
| Navbar.AuthPanel.Dispatch | client/src/components/student/Navbar.tsx:86 | the form becomes `Reduce` of the old form |
| Navbar.AuthPanel.OpenModal | client/src/components/student/Navbar.tsx:324-331 | shows the dialog, resets the form and empties all six slots |
| Navbar.AuthPanel.CloseModal | client/src/components/student/Navbar.tsx:332-336 | closes the dialog, resets the form and empties all six slots |
| Navbar.AuthPanel.OtpInput | client/src/components/student/Navbar.tsx:258-267 | only slot `idx` changes, to the last character typed; the buffer stays six slots of at most one character |
| Navbar.AuthPanel.OtpKeyDown | client/src/components/student/Navbar.tsx:273-293 | Backspace empties slot `idx` when it is non-empty; otherwise the buffer is unchanged |
| Navbar.AuthPanel.OtpPaste | client/src/components/student/Navbar.tsx:295-309 | each slot gets its pasted character or "", and the joined buffer is the pasted prefix |
| Navbar.AuthPanel.VerifyResetOtp | client/src/components/student/Navbar.tsx:211-214 | stores the code and moves to the new-password dialog, with no request |
| Navbar.AuthPanel.SubmitOtp | client/src/components/student/Navbar.tsx:521-527 | in the reset flow the joined slots are kept as the reset code; otherwise they are posted with the form's address |
| Navbar.AuthPanel.SignUpReplied | client/src/components/student/Navbar.tsx:144-149 | success or `isUnverified` opens the sign-up OTP dialog; otherwise the dialog stays |
| Navbar.AuthPanel.LoginReplied | client/src/components/student/Navbar.tsx:162-167 | success closes the dialog and clears form and buffer; failure changes nothing |
| Navbar.AuthPanel.VerifyEmailReplied | client/src/components/student/Navbar.tsx:179-185 | success closes the dialog and clears form and buffer; failure changes nothing |
| Navbar.AuthPanel.SendResetOtpReplied | client/src/components/student/Navbar.tsx:196-201 | success opens the reset OTP dialog; failure changes nothing |
| Navbar.AuthPanel.SubmitResetPassword | client/src/components/student/Navbar.tsx:216-222 | the button sends nothing while `hasResetPasswordErrors` holds (line 599); otherwise the posted body is the form's address, the kept reset code and a non-empty new password equal to its confirmation |
| Navbar.AuthPanel.ResetPasswordReplied | client/src/components/student/Navbar.tsx:223-229 | success ends on a fresh sign-in dialog with an empty form and buffer; failure changes nothing |
| AppContext.AverageRating | client/src/context/AppContext.tsx:50-54 | 0 for a course without ratings; otherwise the mean, whose product with the count is the sum |
| AppContext.AverageWithinScale | client/src/context/AppContext.tsx:50-54 | ratings within a scale average within that scale |
| AppContext.MinutesAppend | client/src/context/AppContext.tsx:57-61 | about `Minutes`, the sum of `calculateChapterTime`: the sum over two lists of lectures is the sum of their sums |
| AppContext.MinutesBoundsEachLecture | client/src/context/AppContext.tsx:57-61 | about `Minutes`: with non-negative durations the total bounds every lecture's duration |
| AppContext.CourseMinutesIsSumOfChapters | client/src/context/AppContext.tsx:66-72 | about `CourseMinutes`, the total of `calculateCourseDuration`: the sum over the flattened lectures (the `flatMap`) is the sum of the chapter totals |
| AppContext.NoOfLecturesCountsFlattened | client/src/context/AppContext.tsx:77-85 | about `NoOfLectures`, which is `calculateNoOfLectures`: when every chapter holds an array, the lecture count is the number of lectures the course duration sums over |
| AppContext.NonArrayChapterCountsZero | client/src/context/AppContext.tsx:81-83 | about `NoOfLectures`: a chapter without an array adds nothing to the lecture count, wherever it sits |
| Player.PrefixesExclusive | client/src/pages/student/Player.tsx:120 | no two of the three alternatives `youtube.com/watch?v=`, `youtube.com/embed/`, `youtu.be/` match at the same index, so their order does not matter |
| Player.GroupStartMatchesPrefix | client/src/pages/student/Player.tsx:120 | about `GroupStart`, the alternation of the expression: the expression matches at an index iff one of the three prefixes occurs there followed by a character other than '&', '?', '/'; the id group then starts right after that prefix |
| Player.FirstMatch | client/src/pages/student/Player.tsx:121 | the search finds the leftmost index where a prefix followed by an id character occurs, or reports that there is none |
| Player.RunEnd | client/src/pages/student/Player.tsx:120 | the greedy group ends at the first '&', '?' or '/', or at the end of the URL |
| Player.ExtractYoutubeId | client/src/pages/student/Player.tsx:118-126 | "" iff the expression matches nowhere; otherwise a run of the URL holding no '&', '?', '/'. Which run it is: `ExtractsWrittenId` |
| Player.ExtractsWrittenId | client/src/pages/student/Player.tsx:118-126 | for every URL `host + prefix + id + rest` where the expression does not match inside `host`, `id` has no '&', '?', '/' and `rest` is empty or starts with one of them, the result is exactly `id`: the run right after the prefix at the leftmost match, up to the first stop. Every matching URL splits this way |
| Player.ExtractsIdAfterPlainHost | client/src/pages/student/Player.tsx:118-126 | the same read-back for a host part without a 'y' (such as `https://www.`), where no match can start |
| Player.Toggled | client/src/pages/student/Player.tsx:55-57 | negates the entry at `index` (a missing one read as closed) and keeps every other entry |
| Player.ToggleTwice | client/src/pages/student/Player.tsx:55-57 | toggling a section twice leaves every section as open as before |
| Player.ToggleCommutes | client/src/pages/student/Player.tsx:55-57 | toggling two different sections in either order gives the same map |
| Player.UnratedKeepsRating | client/src/pages/student/Player.tsx:46-50 | without an entry of the user the rating is left as it was |
| Player.LastEntryWins | client/src/pages/student/Player.tsx:46-50 | the rating becomes that of the user's last entry |
| Player.CourseAfterKeeps | client/src/pages/student/Player.tsx:42-44 | without an enrolled course of the id the shown course is left as it was |
| Player.CourseAfterFinds | client/src/pages/student/Player.tsx:42-44 | the shown course is the last enrolled one of the id |
| Player.RatingAfterSkips | client/src/pages/student/Player.tsx:42-52 | courses of other ids leave the rating alone |
| Player.RatingOfTheCourse | client/src/pages/student/Player.tsx:41-53 | with one enrolled course of the id, the initial rating is the user's last rating of it, or the earlier value |
| Player.CompletionLabel | client/src/pages/student/Player.tsx:242-245 | "Completed" iff progress is loaded and lists the lecture; "Mark Complete" otherwise |
| Player.IconFor | client/src/pages/student/Player.tsx:177-183 | the list shows the tick exactly where the player would say "Completed" |
| Player.Selection | client/src/pages/student/Player.tsx:194-198 | the chosen lecture keeps its fields, with `chapter = index + 1` and `lectureOrder = i + 1` |
| Player.SelectionsDistinguishPlaces | client/src/pages/student/Player.tsx:194-198 | different places in the list give different selections |
| Player.PlayerPage.GetCourseData | client/src/pages/student/Player.tsx:41-53 | the two loops of state writes end in the last matching course and the rating its user entries leave |
| Player.PlayerPage.ToggleSection | client/src/pages/student/Player.tsx:55-57 | the open-sections map becomes `Toggled` of the old one |
| Player.PlayerPage.Watch | client/src/pages/student/Player.tsx:191-199 | the player shows the selection of that lecture |
| Player.PlayerPage.VideoId | client/src/pages/student/Player.tsx:229-232 | no player data gives the id ""; an id never holds '&', '?', '/' |
| CoursesList.Search | client/src/pages/student/CoursesList.tsx:46-51 | never longer than the list, and a course is listed iff it is in the list and `Matches` the input: no input, an empty one, or a lowercased title that includes the lowercased input |
| CoursesList.SearchIsSubsequence | client/src/pages/student/CoursesList.tsx:46-54 | the listed courses are the catalogue with some dropped, in the catalogue's order |
| CoursesList.NoInputListsAll | client/src/pages/student/CoursesList.tsx:46-51 | no input, or an empty one, lists every course in order |
| CoursesList.SearchIdempotent | client/src/pages/student/CoursesList.tsx:47-50 | searching the result again with the same input changes nothing |
| CoursesList.SearchIgnoresInputCase | client/src/pages/student/CoursesList.tsx:49 | an input and its lowercase list the same courses |

## Left out

- Foreign calls are inputs, as listed above: bcrypt, JWT signing and verification, nodemailer, Stripe `constructEvent` and `checkout.sessions.list`, Mongoose, `Math.random` and `Date.now`.
- Concurrency, interleaved requests and the atomicity of `save()` are not modelled. The code awaits each step with no locking, and each request is one sequential run here.
- The webhook signature-failure path (webhooks.js:21-26) is not modelled. The event is taken to have a valid signature.
- An unanswered request is modelled only as the `Crashed` answer with no write. This covers a webhook event with no checkout session or an unknown purchase. Express's handling of the rejected promise is not modelled.
- `Webhooks.Reconcile`: a purchase whose course is missing throws at the first push (webhooks.js:42), before any write. A purchase whose user is missing pushes `null` among the students, saves the course (line 43) and throws at the second push (line 45). The `Consistent` precondition excludes both, so neither crash and no partial write is modelled.
- Catch blocks for database errors are not modelled. `save()` and `findOne` are taken to succeed; only `sendMail` can fail.
- An ObjectId is an opaque string, `timestamps` and all other schema options are left out, and the enrolment list holds the id where the webhook pushes the user document.
- Mongoose's treatment of an `undefined` filter key is not modelled. In `findOne({ email })` with no address, the lookup is of `""`, which gives "User not found" in `sendVerifyOtp`.
- `Auth.AuthController.Register` and `Auth.AuthController.ResetPassword`: `bcrypt.hash` is assumed to return a non-empty hash, so `hashed != ""` is a precondition.
- The mails' `from` address and subject lines are fixed strings and are not modelled; a `Mail` records which template it is built from.
- The cookie's `httpOnly`, `secure` and `sameSite` attributes, chosen by `NODE_ENV`, are left out. Only the user id and maxAge are kept.
- The ECMAScript `TypeError` messages are written as V8 does; the guards' 401 replies for a missing `req.auth` or user use that wording.
- `JsStrings.ToLower` maps only the ASCII letters, as `toLowerCase` does for ASCII. Other Unicode case mappings are left out.
- Strings are sequences of `char`, not UTF-16 code units. This affects `slice` and `split("")` in the OTP handlers only for characters outside the Basic Multilingual Plane.
- `AppContext.AverageRating` divides exactly in the reals; floating-point rounding of the mean is not modelled.
- `humanizeDuration` formatting is left out. Durations are whole minutes added as integers.
- `AppContext.CourseMinutes` requires every chapter to hold an array, so a chapter content of another kind is not modelled in the duration totals. In the code, `calculateChapterTime` throws unless the content has a `reduce` method. `calculateCourseDuration` keeps a non-array content as one element of the `flatMap` result (AppContext.tsx:69). Reading its `lectureDuration` (line 70) then throws for `undefined` or `null` and otherwise adds whatever that property holds, typically giving `NaN`.
- DOM focus movement in the OTP handlers, toasts, navigation and `fetchUserData` are left out.
- The player's network calls (`getCourseProgress`, `markLectureAsCompleted`, `handleRate`) are left out; the progress list is an input.
- `Player.PlayerPage.Watch` requires a lecture URL, because the "Watch" link is only rendered for a lecture that has one.
- Player's `courseId` from the route is a string. An absent one would match no course, which is the same as an id no course has.
- The navbar's logout, `becomeEducator` and user-menu handlers are not part of this model. Navbar_Copy.tsx, the educator pages and the routing files are not part of this model either.

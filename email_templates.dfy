/**
 * The two message bodies of server/configs/emailTemplates.js and how the
 * handlers of server/controllers/authController.js fill them:
 * `TEMPLATE.replace("{{otp}}", otp).replace("{{email}}", email)`.
 *
 * Each template is held as short lists of its text pieces (line by line, long
 * lines cut into short runs) around the `{{otp}}` placeholder, so that facts
 * about its characters can be checked piece by piece; the template itself is
 * the concatenation of the pieces with the placeholder in between.
 */
module EmailTemplates {
  import opened JsStrings

  const OTP_PLACEHOLDER: string := "{{otp}}"
  const EMAIL_PLACEHOLDER: string := "{{email}}"

  function Concat(ps: seq<string>): string
  {
    if ps == [] then "" else ps[0] + Concat(ps[1..])
  }

  // ---- EMAIL_VERIFY_TEMPLATE ----

  /** From the leading newline through `</head>`. */
  const VERIFY_DOCUMENT_HEAD: seq<string> := [
    "\n",
    "<!DOCTYPE html>\n",
    "<html xmlns=\"http://www.w3.org/1",
    "999/xhtml\">\n",
    "<head>\n",
    "  <title>Email",
    " Verification</title>\n",
    "  <meta http-equiv=\"X-UA-Compati",
    "ble\" content=\"IE=edge\">\n",
    "  <meta http-equiv=\"Content-Type",
    "\" content=\"text/html;",
    " charset=UTF-8\">\n",
    "  <meta name=\"viewport\"",
    " content=\"width=device-width,",
    " initial-scale=1.0\">\n",
    "</head>\n"
  ]

  /** The `<body>` start tag and its inline style. */
  const VERIFY_BODY_TAG: seq<string> := [
    "<body style=\"background-color:",
    " #f0fdf4; font-family:",
    " sans-serif;",
    " -webkit-font-smoothing:",
    " antialiased; font-size: 16px;",
    " line-height: 1.4; margin: 0;",
    " padding: 0;\">\n"
  ]

  /** The start tag of the white card. */
  const VERIFY_CARD: seq<string> := [
    "  <div style=\"background-color:",
    " #ffffff; padding: 40px;",
    " text-align: center;",
    " border-radius: 10px;",
    " box-shadow: 0 4px 6px",
    " rgba(0,0,0,0.1); max-width:",
    " 400px; margin: 40px auto;\">\n"
  ]

  /** The heading and the line introducing the code. */
  const VERIFY_HEADING: seq<string> := [
    "    <h1 style=\"color: #16a34a;",
    " margin-bottom: 20px;\">Verify",
    " Your Account</h1>\n",
    "    <p style=\"color: #374151;",
    " font-size: 16px;",
    " margin-bottom: 30px;\">\n",
    "      Your OTP for account",
    " verification is:\n",
    "    </p>\n"
  ]

  /** The start of the box that shows the code, up to the placeholder. */
  const VERIFY_CODE_BOX: seq<string> := [
    "    <div",
    " style=\"background-color:",
    " #dcfce7; color: #15803d;",
    " font-size: 32px; font-weight:",
    " bold; padding: 15px;",
    " border-radius: 8px; display:",
    " inline-block; letter-spacing:",
    " 5px;\">\n",
    "      "
  ]

  /** After the placeholder, through `</html>` and the final newline. */
  const VERIFY_BODY_CLOSE: seq<string> := [
    "\n",
    "    </div>\n",
    "    <p style=\"color: #6b7280;",
    " font-size: 14px; margin-top:",
    " 30px;\">\n",
    "      If you didn\'t request",
    " this verification, please",
    " ignore this email.\n",
    "    </p>\n",
    "  </div>\n",
    "</body>\n",
    "</html>\n"
  ]

  const VERIFY_HEAD: string :=
    Concat(VERIFY_DOCUMENT_HEAD) + Concat(VERIFY_BODY_TAG) + Concat(VERIFY_CARD) + Concat(VERIFY_HEADING) + Concat(VERIFY_CODE_BOX)
  const VERIFY_TAIL: string := Concat(VERIFY_BODY_CLOSE)
  const EMAIL_VERIFY_TEMPLATE: string := VERIFY_HEAD + OTP_PLACEHOLDER + VERIFY_TAIL

  // ---- PASSWORD_RESET_TEMPLATE ----

  /** From the leading newline through `</head>`. */
  const RESET_DOCUMENT_HEAD: seq<string> := [
    "\n",
    "<!DOCTYPE html>\n",
    "<html xmlns=\"http://www.w3.org/1",
    "999/xhtml\">\n",
    "<head>\n",
    "  <title>Password Reset</title>\n",
    "  <meta http-equiv=\"X-UA-Compati",
    "ble\" content=\"IE=edge\">\n",
    "  <meta http-equiv=\"Content-Type",
    "\" content=\"text/html;",
    " charset=UTF-8\">\n",
    "  <meta name=\"viewport\"",
    " content=\"width=device-width,",
    " initial-scale=1.0\">\n",
    "</head>\n"
  ]

  /** The `<body>` start tag and its inline style. */
  const RESET_BODY_TAG: seq<string> := [
    "<body style=\"background-color:",
    " #eff6ff; font-family:",
    " sans-serif;",
    " -webkit-font-smoothing:",
    " antialiased; font-size: 16px;",
    " line-height: 1.4; margin: 0;",
    " padding: 0;\">\n"
  ]

  /** The start tag of the white card. */
  const RESET_CARD: seq<string> := [
    "  <div style=\"background-color:",
    " #ffffff; padding: 40px;",
    " text-align: center;",
    " border-radius: 10px;",
    " box-shadow: 0 4px 6px",
    " rgba(0,0,0,0.1); max-width:",
    " 400px; margin: 40px auto;\">\n"
  ]

  /** The heading and the line introducing the code. */
  const RESET_HEADING: seq<string> := [
    "    <h1 style=\"color: #2563eb;",
    " margin-bottom: 20px;\">Reset",
    " Your Password</h1>\n",
    "    <p style=\"color: #374151;",
    " font-size: 16px;",
    " margin-bottom: 30px;\">\n",
    "      Use the OTP below to",
    " reset your password:\n",
    "    </p>\n"
  ]

  /** The start of the box that shows the code, up to the placeholder. */
  const RESET_CODE_BOX: seq<string> := [
    "    <div",
    " style=\"background-color:",
    " #dbeafe; color: #1e40af;",
    " font-size: 32px; font-weight:",
    " bold; padding: 15px;",
    " border-radius: 8px; display:",
    " inline-block; letter-spacing:",
    " 5px;\">\n",
    "      "
  ]

  /** After the placeholder, up to the validity statement. */
  const RESET_BODY_CLOSE_1: seq<string> := [
    "\n",
    "    </div>\n",
    "    <p style=\"color: #6b7280;",
    " font-size: 14px; margin-top:",
    " 30px;\">\n",
    "      This OTP is "
  ]

  /** After the validity statement, through `</html>` and the final newline. */
  const RESET_BODY_CLOSE_2: seq<string> := [
    ". If you didn\'t request a",
    " password reset, you can safely",
    " ignore this email.\n",
    "    </p>\n",
    "  </div>\n",
    "</body>\n",
    "</html>\n"
  ]

  const RESET_HEAD: string :=
    Concat(RESET_DOCUMENT_HEAD) + Concat(RESET_BODY_TAG) + Concat(RESET_CARD) + Concat(RESET_HEADING) + Concat(RESET_CODE_BOX)

  /** The words that tell the reader how long the code lasts. */
  const RESET_VALIDITY: string := "valid for 15 minutes"

  const RESET_TAIL: string := Concat(RESET_BODY_CLOSE_1) + RESET_VALIDITY + Concat(RESET_BODY_CLOSE_2)
  const PASSWORD_RESET_TEMPLATE: string := RESET_HEAD + OTP_PLACEHOLDER + RESET_TAIL

  /** The mail body a handler builds from a template, a code and an address. */
  function MailBody(template: string, otp: string, email: string): string
  {
    ReplaceFirst(ReplaceFirst(template, OTP_PLACEHOLDER, otp), EMAIL_PLACEHOLDER, email)
  }

  /**
   * A template of the shape `head + "{{otp}}" + tail` with no brace outside the
   * placeholder holds the placeholder exactly once and no `{{email}}` at all,
   * and filling it with a brace-free code yields `head + otp + tail`, whatever the address.
   */
  lemma FillTemplate(head: string, tail: string, otp: string, email: string)
    requires '{' !in head && '{' !in tail && '{' !in otp
    ensures forall j :: MatchAt(head + OTP_PLACEHOLDER + tail, OTP_PLACEHOLDER, j) <==> j == |head|
    ensures forall j :: !MatchAt(head + OTP_PLACEHOLDER + tail, EMAIL_PLACEHOLDER, j)
    ensures MailBody(head + OTP_PLACEHOLDER + tail, otp, email) == head + otp + tail
  {
    var p, e := OTP_PLACEHOLDER, EMAIL_PLACEHOLDER;
    assert Unbordered(p) by {
      forall k | 0 < k < |p| ensures p[k..] != p[..|p| - k] {
        assert p[k..][0] != p[..|p| - k][0] || p[k..][1] != p[..|p| - k][1];
      }
    }
    SoleOccurrence(head, p, tail);
    var s := head + p + tail;
    assert s[..|head|] == head && s[|head| + |p|..] == tail;
    var filled := head + otp + tail;
    forall j: nat ensures !MatchAt(s, e, j) && !MatchAt(filled, e, j) {
      if j + |e| <= |s| {
        var w := s[j..j + |e|];
        assert w[0] == s[j] && w[1] == s[j + 1] && w[2] == s[j + 2];
        if j < |head| {
          assert s[j] == head[j];
        } else if j < |head| + |p| {
          var k := j - |head|;
          assert s[j] == p[k];
          if k + 1 < |p| {
            assert s[j + 1] == p[k + 1];
          } else {
            assert s[j + 1] == tail[0];
          }
          if k == 0 {
            assert s[j + 2] == p[2];
          }
        } else {
          assert s[j] == tail[j - |head| - |p|];
        }
      }
      if j + |e| <= |filled| {
        assert filled[j..j + |e|][0] == filled[j];
        assert filled[j] in filled;
      }
    }
  }

  /** No piece of the list contains a brace. */
  predicate BraceFree(ps: seq<string>)
  {
    forall k :: 0 <= k < |ps| ==> '{' !in ps[k]
  }

  lemma {:induction false} ConcatAvoids(ps: seq<string>, c: char)
    requires forall k :: 0 <= k < |ps| ==> c !in ps[k]
    ensures c !in Concat(ps)
  {
    if ps != [] {
      ConcatAvoids(ps[1..], c);
    }
  }

  lemma VerifyDocumentHeadBraceFree()
    ensures BraceFree(VERIFY_DOCUMENT_HEAD)
  {
  }

  lemma VerifyBodyTagBraceFree()
    ensures BraceFree(VERIFY_BODY_TAG)
  {
  }

  lemma VerifyCardBraceFree()
    ensures BraceFree(VERIFY_CARD)
  {
  }

  lemma VerifyHeadingBraceFree()
    ensures BraceFree(VERIFY_HEADING)
  {
  }

  lemma VerifyCodeBoxBraceFree()
    ensures BraceFree(VERIFY_CODE_BOX)
  {
  }

  lemma VerifyBodyCloseBraceFree()
    ensures BraceFree(VERIFY_BODY_CLOSE)
  {
  }

  lemma ResetDocumentHeadBraceFree()
    ensures BraceFree(RESET_DOCUMENT_HEAD)
  {
  }

  lemma ResetBodyTagBraceFree()
    ensures BraceFree(RESET_BODY_TAG)
  {
  }

  lemma ResetCardBraceFree()
    ensures BraceFree(RESET_CARD)
  {
  }

  lemma ResetHeadingBraceFree()
    ensures BraceFree(RESET_HEADING)
  {
  }

  lemma ResetCodeBoxBraceFree()
    ensures BraceFree(RESET_CODE_BOX)
  {
  }

  lemma ResetBodyClose1BraceFree()
    ensures BraceFree(RESET_BODY_CLOSE_1)
  {
  }

  lemma ResetBodyClose2BraceFree()
    ensures BraceFree(RESET_BODY_CLOSE_2)
  {
  }

  /** No brace occurs in the verification template before its placeholder. */
  lemma VerifyHeadBraceFree()
    ensures '{' !in VERIFY_HEAD
  {
    VerifyDocumentHeadBraceFree();
    ConcatAvoids(VERIFY_DOCUMENT_HEAD, '{');
    VerifyBodyTagBraceFree();
    ConcatAvoids(VERIFY_BODY_TAG, '{');
    VerifyCardBraceFree();
    ConcatAvoids(VERIFY_CARD, '{');
    VerifyHeadingBraceFree();
    ConcatAvoids(VERIFY_HEADING, '{');
    VerifyCodeBoxBraceFree();
    ConcatAvoids(VERIFY_CODE_BOX, '{');
  }

  /** No brace occurs in the verification template after its placeholder. */
  lemma VerifyTailBraceFree()
    ensures '{' !in VERIFY_TAIL
  {
    VerifyBodyCloseBraceFree();
    ConcatAvoids(VERIFY_BODY_CLOSE, '{');
  }

  /** No brace occurs in the reset template before its placeholder. */
  lemma ResetHeadBraceFree()
    ensures '{' !in RESET_HEAD
  {
    ResetDocumentHeadBraceFree();
    ConcatAvoids(RESET_DOCUMENT_HEAD, '{');
    ResetBodyTagBraceFree();
    ConcatAvoids(RESET_BODY_TAG, '{');
    ResetCardBraceFree();
    ConcatAvoids(RESET_CARD, '{');
    ResetHeadingBraceFree();
    ConcatAvoids(RESET_HEADING, '{');
    ResetCodeBoxBraceFree();
    ConcatAvoids(RESET_CODE_BOX, '{');
  }

  /** No brace occurs in the reset template after its placeholder. */
  lemma ResetTailBraceFree()
    ensures '{' !in RESET_TAIL
  {
    ResetBodyClose1BraceFree();
    ConcatAvoids(RESET_BODY_CLOSE_1, '{');
    ResetBodyClose2BraceFree();
    ConcatAvoids(RESET_BODY_CLOSE_2, '{');
    assert '{' !in RESET_VALIDITY;
  }

  /** EMAIL_VERIFY_TEMPLATE holds `{{otp}}` exactly once, right after its head. */
  lemma VerifyTemplatePlaceholder()
    ensures forall j :: MatchAt(EMAIL_VERIFY_TEMPLATE, OTP_PLACEHOLDER, j) <==> j == |VERIFY_HEAD|
  {
    VerifyHeadBraceFree();
    VerifyTailBraceFree();
    FillTemplate(VERIFY_HEAD, VERIFY_TAIL, "", "");
  }

  /**
   * EMAIL_VERIFY_TEMPLATE holds no `{{email}}`, so the second `replace` leaves the
   * body unchanged: the mail is the template with the code in place of `{{otp}}`.
   */
  lemma VerifyMailBody(otp: string, email: string)
    requires '{' !in otp
    ensures forall j :: !MatchAt(EMAIL_VERIFY_TEMPLATE, EMAIL_PLACEHOLDER, j)
    ensures MailBody(EMAIL_VERIFY_TEMPLATE, otp, email) == VERIFY_HEAD + otp + VERIFY_TAIL
  {
    VerifyHeadBraceFree();
    VerifyTailBraceFree();
    FillTemplate(VERIFY_HEAD, VERIFY_TAIL, otp, email);
  }

  /** PASSWORD_RESET_TEMPLATE holds `{{otp}}` exactly once, right after its head. */
  lemma ResetTemplatePlaceholder()
    ensures forall j :: MatchAt(PASSWORD_RESET_TEMPLATE, OTP_PLACEHOLDER, j) <==> j == |RESET_HEAD|
  {
    ResetHeadBraceFree();
    ResetTailBraceFree();
    FillTemplate(RESET_HEAD, RESET_TAIL, "", "");
  }

  /** The reset mail is PASSWORD_RESET_TEMPLATE with the code in place of `{{otp}}`. */
  lemma ResetMailBody(otp: string, email: string)
    requires '{' !in otp
    ensures forall j :: !MatchAt(PASSWORD_RESET_TEMPLATE, EMAIL_PLACEHOLDER, j)
    ensures MailBody(PASSWORD_RESET_TEMPLATE, otp, email) == RESET_HEAD + otp + RESET_TAIL
  {
    ResetHeadBraceFree();
    ResetTailBraceFree();
    FillTemplate(RESET_HEAD, RESET_TAIL, otp, email);
  }

  /** The reset mail, once filled, still tells the reader the code is valid for 15 minutes. */
  lemma ResetMailStatesValidity(otp: string, email: string)
    requires '{' !in otp
    ensures Includes(MailBody(PASSWORD_RESET_TEMPLATE, otp, email), RESET_VALIDITY)
  {
    ResetMailBody(otp, email);
    IncludedInTail(RESET_HEAD, otp, Concat(RESET_BODY_CLOSE_1), RESET_VALIDITY, Concat(RESET_BODY_CLOSE_2));
  }

  /** A filled template includes every run of text of its tail. */
  lemma IncludedInTail(head: string, otp: string, before: string, t: string, after: string)
    ensures Includes(head + otp + (before + t + after), t)
  {
    assert head + otp + (before + t + after) == (head + otp + before) + t + after;
    IncludesMiddle(head + otp + before, t, after);
  }
}

/**
 * The client-side state of the sign-up/sign-in/reset flow in
 * client/src/components/student/Navbar.tsx: the form reducer, the checks that
 * disable each form's button, the six-slot OTP buffer, and the transitions
 * of the auth modal, including those driven by the server's replies.
 *
 * Network calls are not made here: a handler that posts to the server is
 * split into the request it sends and the transition it makes once the reply
 * (an `Http.Reply`) is in. Toasts, `fetchUserData` and focus movement are
 * left out.
 */
module Navbar {
  import opened Wrappers
  import opened Http
  import opened JsStrings

  /** `AuthModalType`; `Closed` is `null`. */
  datatype AuthModal = Closed | SignUp | SignIn | ForgotPass | ResetPass | OtpSignup | OtpForgot

  datatype Field = Name | Email | Password | ConfirmPass

  datatype Touched = Touched(name: bool, email: bool, password: bool, confirmPass: bool)

  datatype FormState = FormState(name: string, email: string, password: string, confirmPass: string, touched: Touched)

  /** A `Partial<FormState>`: a key that is present replaces the state's value. */
  datatype FormPatch = FormPatch(name: Option<string>, email: Option<string>, password: Option<string>,
                                 confirmPass: Option<string>, touched: Option<Touched>)

  datatype Action = SetField(field: Field, value: string) | SetTouched(flag: Field, on: bool) | Reset | SetAll(payload: FormPatch)

  const INITIAL_FORM: FormState := FormState("", "", "", "", Touched(false, false, false, false))

  function Value(s: FormState, f: Field): string
  {
    match f
    case Name => s.name
    case Email => s.email
    case Password => s.password
    case ConfirmPass => s.confirmPass
  }

  function IsTouched(t: Touched, f: Field): bool
  {
    match f
    case Name => t.name
    case Email => t.email
    case Password => t.password
    case ConfirmPass => t.confirmPass
  }

  function Override<T>(patch: Option<T>, current: T): T
  {
    match patch
    case Some(v) => v
    case None => current
  }

  /**
   * `reducer`: `SET_FIELD` changes the one field, `SET_TOUCHED` the one flag,
   * `RESET` gives back the initial state and `SET_ALL` takes every key the
   * payload has.
   */
  function Reduce(s: FormState, a: Action): (r: FormState)
    ensures a.SetField? ==>
              && Value(r, a.field) == a.value
              && (forall f :: f != a.field ==> Value(r, f) == Value(s, f))
              && r.touched == s.touched
    ensures a.SetTouched? ==>
              && IsTouched(r.touched, a.flag) == a.on
              && (forall f :: f != a.flag ==> IsTouched(r.touched, f) == IsTouched(s.touched, f))
              && (forall f :: Value(r, f) == Value(s, f))
    ensures a.Reset? ==> forall f :: Value(r, f) == "" && !IsTouched(r.touched, f)
    ensures a.SetAll? ==>
              && r.name == Override(a.payload.name, s.name)
              && r.email == Override(a.payload.email, s.email)
              && r.password == Override(a.payload.password, s.password)
              && r.confirmPass == Override(a.payload.confirmPass, s.confirmPass)
              && r.touched == Override(a.payload.touched, s.touched)
  {
    match a
    case SetField(field, value) =>
      (match field
       case Name => s.(name := value)
       case Email => s.(email := value)
       case Password => s.(password := value)
       case ConfirmPass => s.(confirmPass := value))
    case SetTouched(field, on) =>
      var t := s.touched;
      s.(touched := match field
                    case Name => t.(name := on)
                    case Email => t.(email := on)
                    case Password => t.(password := on)
                    case ConfirmPass => t.(confirmPass := on))
    case Reset => INITIAL_FORM
    case SetAll(p) =>
      FormState(Override(p.name, s.name), Override(p.email, s.email), Override(p.password, s.password),
                Override(p.confirmPass, s.confirmPass), Override(p.touched, s.touched))
  }

  /** Setting a field to the value it has is no change, and setting it twice keeps the second value. */
  lemma SetFieldLastWins(s: FormState, f: Field, v: string, w: string)
    ensures Reduce(s, SetField(f, Value(s, f))) == s
    ensures Reduce(Reduce(s, SetField(f, v)), SetField(f, w)) == Reduce(s, SetField(f, w))
  {
  }

  /** `hasSignupErrors`: a blank name or address, no password, or a confirmation that differs. */
  function HasSignupErrors(s: FormState): (b: bool)
    ensures b <==> IsBlank(s.name) || IsBlank(s.email) || s.password == "" || s.confirmPass != s.password
  {
    TrimEmptyIffBlank(s.name);
    TrimEmptyIffBlank(s.email);
    Trim(s.name) == "" || Trim(s.email) == "" || s.password == "" || s.confirmPass != s.password
  }

  /** `hasLoginErrors`: a blank address or no password. */
  function HasLoginErrors(s: FormState): (b: bool)
    ensures b <==> IsBlank(s.email) || s.password == ""
  {
    TrimEmptyIffBlank(s.email);
    Trim(s.email) == "" || s.password == ""
  }

  /** `hasForgotPasswordErrors`: a blank address. */
  function HasForgotPasswordErrors(s: FormState): (b: bool)
    ensures b <==> IsBlank(s.email)
  {
    TrimEmptyIffBlank(s.email);
    Trim(s.email) == ""
  }

  /** `hasResetPasswordErrors`: no password, or a confirmation that differs. */
  function HasResetPasswordErrors(s: FormState): (b: bool)
    ensures b <==> s.password == "" || s.confirmPass != s.password
  {
    s.password == "" || s.confirmPass != s.password
  }

  /**
   * A form whose button is enabled sends every field the server insists on,
   * so the client never provokes "Missing Details" or "... are required".
   */
  lemma EnabledFormsSendRequiredFields(s: FormState)
    ensures !HasSignupErrors(s) ==> s.name != "" && s.email != "" && s.password != ""
    ensures !HasLoginErrors(s) ==> s.email != "" && s.password != ""
    ensures !HasForgotPasswordErrors(s) ==> s.email != ""
    ensures !HasResetPasswordErrors(s) ==> s.password != ""
  {
    assert IsBlank("");
  }

  /** The initial form has every check failing, so no button starts enabled. */
  lemma InitialFormBlocksEverySubmit()
    ensures HasSignupErrors(INITIAL_FORM) && HasLoginErrors(INITIAL_FORM)
    ensures HasForgotPasswordErrors(INITIAL_FORM) && HasResetPasswordErrors(INITIAL_FORM)
  {
    assert IsBlank("");
  }

  const OTP_LENGTH: nat := 6

  /** `Array(OTP_LENGTH).fill("")`. */
  function EmptySlots(): (slots: seq<string>)
    ensures |slots| == OTP_LENGTH && forall i :: 0 <= i < |slots| ==> slots[i] == ""
  {
    seq(OTP_LENGTH, _ => "")
  }

  /** `otpValues.join("")`. */
  function Join(slots: seq<string>): string
  {
    if slots == [] then "" else slots[0] + Join(slots[1..])
  }

  /** `text.slice(0, OTP_LENGTH)`. */
  function PasteText(text: string): (paste: string)
    ensures |paste| <= OTP_LENGTH && paste <= text
    ensures |text| <= OTP_LENGTH ==> paste == text
  {
    if |text| <= OTP_LENGTH then text else text[..OTP_LENGTH]
  }

  /** What the paste handler stores in slot `i`: the i-th of the first six pasted characters, or "". */
  function PastedSlot(text: string, i: nat): (slot: string)
    ensures i < OTP_LENGTH && i < |text| ==> slot == [text[i]]
    ensures i >= OTP_LENGTH || i >= |text| ==> slot == ""
  {
    var paste := PasteText(text);
    if i < |paste| then [paste[i]] else ""
  }

  /** `n` slots holding the characters of `t` one by one, then empty ones. */
  function Spread(t: string, n: nat): (slots: seq<string>)
    ensures |slots| == n
    ensures forall i :: 0 <= i < n ==> slots[i] == if i < |t| then [t[i]] else ""
  {
    seq(n, i requires 0 <= i < n => if i < |t| then [t[i]] else "")
  }

  lemma {:induction false} JoinSpread(t: string, n: nat)
    requires |t| <= n
    ensures Join(Spread(t, n)) == t
  {
    if n > 0 {
      var s := Spread(t, n);
      var rest := if t == [] then t else t[1..];
      assert s[1..] == Spread(rest, n - 1);
      JoinSpread(rest, n - 1);
      if t != [] {
        assert t == [t[0]] + rest;
      }
    }
  }

  /** After a paste, the code that is submitted is the first six characters pasted. */
  lemma PasteThenSubmit(text: string)
    ensures forall i :: 0 <= i < OTP_LENGTH ==> Spread(PasteText(text), OTP_LENGTH)[i] == PastedSlot(text, i)
    ensures Join(Spread(PasteText(text), OTP_LENGTH)) == PasteText(text)
  {
    JoinSpread(PasteText(text), OTP_LENGTH);
  }

  /** Six slots of at most one character each: the buffer as the handlers keep it. */
  predicate WellFormedSlots(slots: seq<string>)
  {
    |slots| == OTP_LENGTH && forall i :: 0 <= i < |slots| ==> |slots[i]| <= 1
  }

  lemma {:induction false} JoinLength(slots: seq<string>)
    requires forall i :: 0 <= i < |slots| ==> |slots[i]| <= 1
    ensures |Join(slots)| <= |slots|
  {
    if slots != [] {
      JoinLength(slots[1..]);
    }
  }

  /** The state of the navbar's auth dialogs. */
  class AuthPanel {
    var authModal: AuthModal
    var form: FormState
    var otpValues: seq<string>
    var resetOtp: string

    ghost predicate Valid()
      reads this
    {
      WellFormedSlots(otpValues)
    }

    constructor ()
      ensures Valid()
      ensures authModal == Closed && form == INITIAL_FORM && otpValues == EmptySlots() && resetOtp == ""
    {
      authModal := Closed;
      form := INITIAL_FORM;
      otpValues := EmptySlots();
      resetOtp := "";
    }

    /** `dispatch(action)`. */
    method Dispatch(a: Action)
      modifies this`form
      ensures form == Reduce(old(form), a)
    {
      form := Reduce(form, a);
    }

    /** `openModal(modal)`: show that dialog on a fresh form and an empty buffer. */
    method OpenModal(modal: AuthModal)
      modifies this`authModal, this`form, this`otpValues
      ensures Valid()
      ensures authModal == modal && form == INITIAL_FORM && otpValues == EmptySlots()
    {
      authModal := modal;
      form := Reduce(form, Reset);
      otpValues := EmptySlots();
    }

    /** `closeModal()`. */
    method CloseModal()
      modifies this`authModal, this`form, this`otpValues
      ensures Valid()
      ensures authModal == Closed && form == INITIAL_FORM && otpValues == EmptySlots()
    {
      OpenModal(Closed);
    }

    /** `handleOtpInput`: slot `idx` takes the last character typed into it. */
    method OtpInput(input: string, idx: nat)
      requires Valid() && idx < OTP_LENGTH
      modifies this`otpValues
      ensures Valid()
      ensures otpValues == old(otpValues)[idx := LastChar(input)]
    {
      var value := LastChar(input);
      var arr := otpValues;
      arr := arr[idx := value];
      otpValues := arr;
    }

    /** `handleOtpKeyDown`: Backspace empties a non-empty slot; every other key leaves the buffer. */
    method OtpKeyDown(key: string, idx: nat)
      requires Valid() && idx < OTP_LENGTH
      modifies this`otpValues
      ensures Valid()
      ensures key == "Backspace" && old(otpValues)[idx] != "" ==> otpValues == old(otpValues)[idx := ""]
      ensures key != "Backspace" || old(otpValues)[idx] == "" ==> otpValues == old(otpValues)
    {
      if key == "Backspace" {
        if otpValues[idx] != "" {
          otpValues := otpValues[idx := ""];
        }
      }
    }

    /** `handleOtpPaste`: the loop over the six slots of a copy of the buffer. */
    method OtpPaste(text: string)
      requires Valid()
      modifies this`otpValues
      ensures Valid()
      ensures forall i :: 0 <= i < OTP_LENGTH ==> otpValues[i] == PastedSlot(text, i)
      ensures Join(otpValues) == PasteText(text)
    {
      var paste := PasteText(text);
      var prev := otpValues;
      var arr := new string[OTP_LENGTH];
      for k := 0 to OTP_LENGTH
        invariant forall j :: 0 <= j < k ==> arr[j] == prev[j]
      {
        arr[k] := prev[k];
      }
      for i := 0 to OTP_LENGTH
        invariant forall j :: 0 <= j < i ==> arr[j] == PastedSlot(text, j)
      {
        arr[i] := if i < |paste| then [paste[i]] else "";
      }
      otpValues := arr[..];
      PasteThenSubmit(text);
      assert otpValues == Spread(paste, OTP_LENGTH);
    }

    /** `verifyResetOtpHandler`: keep the code and move on to the new-password dialog; no request is sent. */
    method VerifyResetOtp(otp: string)
      modifies this`resetOtp, this`authModal
      ensures resetOtp == otp && authModal == ResetPass
    {
      resetOtp := otp;
      authModal := ResetPass;
    }

    /**
     * The OTP dialog's Verify button: in the reset flow the joined code is only
     * kept; otherwise it is posted with the form's address to verify-account.
     */
    method SubmitOtp() returns (verifyRequest: Option<(string, string)>)
      requires Valid()
      modifies this`resetOtp, this`authModal
      ensures Valid() && otpValues == old(otpValues) && form == old(form)
      ensures old(authModal) == OtpForgot ==>
                verifyRequest == None && resetOtp == Join(otpValues) && authModal == ResetPass && |resetOtp| <= OTP_LENGTH
      ensures old(authModal) != OtpForgot ==>
                verifyRequest == Some((form.email, Join(otpValues))) && authModal == old(authModal) && resetOtp == old(resetOtp)
    {
      var otp := Join(otpValues);
      JoinLength(otpValues);
      if authModal == OtpForgot {
        VerifyResetOtp(otp);
        verifyRequest := None;
      } else {
        verifyRequest := Some((form.email, otp));
      }
    }

    /** `signUpHandler` once the reply is in: a success or an unverified account opens the OTP dialog. */
    method SignUpReplied(data: Reply)
      modifies this`authModal
      ensures authModal == if data.success || data.isUnverified then OtpSignup else old(authModal)
    {
      if data.success || data.isUnverified {
        authModal := OtpSignup;
      }
    }

    /** `loginHandler` once the reply is in: a success closes the dialog. */
    method LoginReplied(data: Reply)
      requires Valid()
      modifies this`authModal, this`form, this`otpValues
      ensures Valid()
      ensures data.success ==> authModal == Closed && form == INITIAL_FORM && otpValues == EmptySlots()
      ensures !data.success ==> authModal == old(authModal) && form == old(form) && otpValues == old(otpValues)
    {
      if data.success {
        CloseModal();
      }
    }

    /** `verifyEmailHandler` once the reply is in: a success closes the dialog. */
    method VerifyEmailReplied(data: Reply)
      requires Valid()
      modifies this`authModal, this`form, this`otpValues
      ensures Valid()
      ensures data.success ==> authModal == Closed && form == INITIAL_FORM && otpValues == EmptySlots()
      ensures !data.success ==> authModal == old(authModal) && form == old(form) && otpValues == old(otpValues)
    {
      if data.success {
        CloseModal();
      }
    }

    /** `sendResetOtpHandler` once the reply is in: a success opens the OTP dialog of the reset flow. */
    method SendResetOtpReplied(data: Reply)
      modifies this`authModal
      ensures authModal == if data.success then OtpForgot else old(authModal)
    {
      if data.success {
        authModal := OtpForgot;
      }
    }

    /**
     * The new-password dialog's button: refused while `hasResetPasswordErrors`
     * holds; otherwise `submitResetPassword` posts the form's address, the code
     * kept by `verifyResetOtpHandler` and a non-empty new password that the
     * confirmation matches.
     */
    method SubmitResetPassword() returns (request: Option<(string, string, string)>)
      ensures request.None? <==> HasResetPasswordErrors(form)
      ensures request.Some? ==>
                && request.value == (form.email, resetOtp, form.password)
                && request.value.2 != "" && request.value.2 == form.confirmPass
    {
      if HasResetPasswordErrors(form) {
        return None;
      }
      request := Some((form.email, resetOtp, form.password));
    }

    /** `submitResetPassword` once the reply is in: a success closes the dialog and opens sign-in afresh. */
    method ResetPasswordReplied(data: Reply)
      requires Valid()
      modifies this`authModal, this`form, this`otpValues
      ensures Valid()
      ensures data.success ==> authModal == SignIn && form == INITIAL_FORM && otpValues == EmptySlots()
      ensures !data.success ==> authModal == old(authModal) && form == old(form) && otpValues == old(otpValues)
    {
      if data.success {
        CloseModal();
        OpenModal(SignIn);
      }
    }
  }
}

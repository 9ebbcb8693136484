/** The passwordless sign-up / sign-in form. Both pages run the same phase
    machine: while `otpRequested` is false the primary button requests a
    code for `email`; once a code was sent it verifies `otp`. Each action
    clears `error`, validates locally, and only then calls the identity
    provider; the phase changes only when the provider reports success.

    An awaited provider call is split in two: the action returns the
    `ProviderCall` it issues and leaves the form `loading` with the call
    `pending`; `Settle` is the rest of the action, run when the provider
    answers. */
module OtpFlow {
  import opened Js
  import opened Schemas

  /** A request to the identity provider. Only the email and the code travel. */
  datatype ProviderCall = SignInWithOtp(email: string) | VerifyEmailOtp(email: string, token: string)

  /** The call the primary button issues: nothing while it is disabled
      (`loading`), nothing when validation fails, otherwise a code request
      before the phase change and a verification after it. */
  function PrimaryCall(isEmail: string -> bool, email: string, otp: string, otpRequested: bool, loading: bool)
    : (c: Option<ProviderCall>)
    ensures c.Some? ==> !loading && isEmail(email)
    ensures c.Some? ==> c.value == (if otpRequested then VerifyEmailOtp(email, otp) else SignInWithOtp(email))
    ensures !loading && !otpRequested && isEmail(email) ==> c.Some?
    ensures !loading && otpRequested ==> (c.Some? <==> isEmail(email) && |otp| == OtpDigits && AllDigits(otp))
  {
    if loading then None
    else if otpRequested then
      if CheckEmail(isEmail, email) == None && CheckOtp(otp) == None then Some(VerifyEmailOtp(email, otp)) else None
    else
      if CheckEmail(isEmail, email) == None then Some(SignInWithOtp(email)) else None
  }

  /** The message left in `error` by the validation step of an action. The
      email is checked first, in both phases; an error is reported exactly
      when no provider call is made. */
  function SubmitError(isEmail: string -> bool, email: string, otp: string, otpRequested: bool)
    : (e: Option<string>)
    ensures !isEmail(email) ==> e == Some(EmailMessage)
    ensures isEmail(email) && !otpRequested ==> e == None
    ensures isEmail(email) && otpRequested ==> e == CheckOtp(otp)
    ensures e == None <==> PrimaryCall(isEmail, email, otp, otpRequested, false).Some?
  {
    var emailError := CheckEmail(isEmail, email);
    if emailError.Some? || !otpRequested then emailError else CheckOtp(otp)
  }

  /** The state of the OTP form; the sign-in page is exactly this. */
  class OtpForm {
    const isEmail: string -> bool
    var email: string
    var otp: string
    var otpVisible: bool
    var otpRequested: bool
    var error: Option<string>
    var loading: bool
    /** The provider call the suspended action is waiting for. */
    var pending: Option<ProviderCall>

    ghost predicate Valid()
      reads this
    {
      (loading <==> pending.Some?) && (pending.Some? ==> error == None)
    }

    /** The state at mount: entering an email, nothing in flight. */
    ghost predicate Initial()
      reads this
    {
      email == "" && otp == "" && !otpVisible && !otpRequested
      && error == None && !loading && pending == None
    }

    constructor (isEmail: string -> bool)
      ensures Valid() && Initial() && this.isEmail == isEmail
    {
      this.isEmail := isEmail;
      email, otp := "", "";
      otpVisible, otpRequested := false, false;
      error, loading, pending := None, false, None;
    }

    /** The email input's change handler. */
    method SetEmail(value: string)
      requires Valid()
      modifies this`email
      ensures Valid() && email == value
    {
      email := value;
    }

    /** The OTP input's change handler. */
    method SetOtp(value: string)
      requires Valid()
      modifies this`otp
      ensures Valid() && otp == value
    {
      otp := value;
    }

    /** The eye button: shows or hides the code and touches nothing else. */
    method ToggleOtpVisible()
      requires Valid()
      modifies this`otpVisible
      ensures Valid() && otpVisible == !old(otpVisible)
    {
      otpVisible := !otpVisible;
    }

    /** `requestOtp` up to its await. Its only caller is the primary
        button, which is disabled while `loading`. */
    method RequestOtp() returns (call: Option<ProviderCall>)
      requires Valid() && !loading
      modifies this`error, this`loading, this`pending
      ensures Valid()
      ensures isEmail(email) ==> call == Some(SignInWithOtp(email)) && error == None && loading && pending == call
      ensures !isEmail(email) ==> call == None && error == Some(EmailMessage) && !loading && pending == None
    {
      error := None;
      var parsed := CheckEmail(isEmail, email);
      if parsed.Some? {
        error := parsed;
        return None;
      }
      loading := true;
      call := Some(SignInWithOtp(email));
      pending := call;
    }

    /** `verifyOtp` up to its await: the email is validated again, then the
        code, and either failure keeps the provider out of it. */
    method VerifyOtp() returns (call: Option<ProviderCall>)
      requires Valid() && !loading
      modifies this`error, this`loading, this`pending
      ensures Valid()
      ensures call == (if isEmail(email) && CheckOtp(otp) == None then Some(VerifyEmailOtp(email, otp)) else None)
      ensures error == SubmitError(isEmail, email, otp, true)
      ensures loading == call.Some? && pending == call
    {
      error := None;
      var parsedEmail := CheckEmail(isEmail, email);
      if parsedEmail.Some? {
        error := parsedEmail;
        return None;
      }
      var parsedOtp := CheckOtp(otp);
      if parsedOtp.Some? {
        error := parsedOtp;
        return None;
      }
      loading := true;
      call := Some(VerifyEmailOtp(email, otp));
      pending := call;
    }

    /** The primary button: `otpRequested ? verifyOtp : requestOtp`,
        disabled while `loading`. */
    method PressPrimary() returns (call: Option<ProviderCall>)
      requires Valid()
      modifies this`error, this`loading, this`pending
      ensures Valid()
      ensures call == PrimaryCall(isEmail, email, otp, otpRequested, old(loading))
      ensures old(loading) ==> error == old(error) && loading && pending == old(pending)
      ensures !old(loading) ==> error == SubmitError(isEmail, email, otp, otpRequested)
      ensures !old(loading) ==> loading == call.Some? && pending == call
    {
      if loading {
        return None;
      }
      if otpRequested {
        call := VerifyOtp();
      } else {
        call := RequestOtp();
      }
    }

    /** The rest of the pending action once the provider answers: `loading`
        drops, a failure shows the provider's message, a sent code moves
        the form to the OTP phase, and a verified code changes nothing
        else (the session change is what leaves the page). */
    method Settle(outcome: Outcome)
      requires Valid() && pending.Some?
      modifies this`error, this`loading, this`pending, this`otpRequested
      ensures Valid() && !loading && pending == None
      ensures error == (if outcome.Err? then Some(outcome.message) else None)
      ensures otpRequested == (old(otpRequested) || (old(pending.value).SignInWithOtp? && outcome.Ok?))
    {
      var call := pending.value;
      loading, pending := false, None;
      if outcome.Err? {
        error := Some(outcome.message);
        return;
      }
      if call.SignInWithOtp? {
        otpRequested := true;
      }
    }
  }

  /** The sign-up page: the same form plus a name and a date of birth,
      which are collected and never sent anywhere. */
  class SignUpPage {
    var name: string
    var dob: string
    const form: OtpForm

    ghost predicate Valid()
      reads this, form
    {
      form.Valid()
    }

    constructor (isEmail: string -> bool)
      ensures Valid() && fresh(form) && form.Initial() && form.isEmail == isEmail
      ensures name == "" && dob == ""
    {
      name, dob := "", "";
      form := new OtpForm(isEmail);
    }

    method SetName(value: string)
      requires Valid()
      modifies this`name
      ensures Valid() && name == value
    {
      name := value;
    }

    method SetDob(value: string)
      requires Valid()
      modifies this`dob
      ensures Valid() && dob == value
    {
      dob := value;
    }

    /** The primary button of the sign-up page: what reaches the provider
        is decided by the form's email, code and phase alone. */
    method PressPrimary() returns (call: Option<ProviderCall>)
      requires Valid()
      modifies form`error, form`loading, form`pending
      ensures Valid()
      ensures call == PrimaryCall(form.isEmail, form.email, form.otp, form.otpRequested, old(form.loading))
      ensures old(form.loading) ==> form.error == old(form.error) && form.loading && form.pending == old(form.pending)
      ensures !old(form.loading) ==> form.error == SubmitError(form.isEmail, form.email, form.otp, form.otpRequested)
      ensures !old(form.loading) ==> form.loading == call.Some? && form.pending == call
      ensures name == old(name) && dob == old(dob)
    {
      call := form.PressPrimary();
    }
  }
}

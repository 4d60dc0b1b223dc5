/** The reset-password page: the code field's filter, the submit button's
    state and the checks `handleSubmit` runs before it sends anything. */
module ResetPasswordPage {
  import opened Wrappers
  import opened Text
  import Seqs
  import opened Http

  const CodeLength: nat := 6
  const MinPasswordLength: nat := 6
  const PasswordsDiffer := "PASSWORDS DO NOT MATCH"
  const PasswordTooShort := "PASSWORD MUST BE AT LEAST 6 CHARACTERS"
  const ResetDone := "PASSWORD RESET SUCCESSFUL"
  const ResetFailed := "RESET FAILED"
  const ConnectionError := "CONNECTION ERROR: TRY AGAIN"

  datatype Toast = Toast(message: string, isError: bool)

  /** The body the page posts to the reset handler. */
  datatype ResetRequest = ResetRequest(email: string, otp: string, newPassword: string)

  /** The code field: `maxLength={6}` cuts what is entered to six
      characters and the change handler then drops every non-digit. */
  function CodeInput(entered: string): (r: string)
    ensures |r| <= CodeLength && AllDigits(r)
  {
    DigitsOnly(Seqs.Take(entered, CodeLength))
  }

  /** A code of at most six digits is kept as entered, so entering the
      field's own value again changes nothing. */
  lemma CodeInputKeepsCodes(entered: string)
    ensures AllDigits(entered) && |entered| <= CodeLength ==> CodeInput(entered) == entered
    ensures CodeInput(CodeInput(entered)) == CodeInput(entered)
  {
    if AllDigits(entered) && |entered| <= CodeLength {
      DigitsOnlyIdentity(entered);
    }
    DigitsOnlyIdentity(CodeInput(entered));
  }

  /** `disabled={loading || otp.length < 6}`. */
  predicate SubmitDisabled(loading: bool, otp: string) {
    loading || |otp| < CodeLength
  }

  /** An enabled button means a full code of six digits is in the field. */
  lemma EnabledMeansFullCode(entered: string)
    ensures !SubmitDisabled(false, CodeInput(entered)) <==> |CodeInput(entered)| == CodeLength
    ensures !SubmitDisabled(false, CodeInput(entered)) ==> AllDigits(CodeInput(entered))
  {
  }

  /** The checks before the request: the two passwords must agree, and
      only then is the length checked. */
  function PasswordError(newPassword: string, confirmPassword: string): (r: Option<string>)
    ensures newPassword != confirmPassword ==> r == Some(PasswordsDiffer)
    ensures newPassword == confirmPassword && |newPassword| < MinPasswordLength ==> r == Some(PasswordTooShort)
    ensures r.None? <==> newPassword == confirmPassword && |newPassword| >= MinPasswordLength
  {
    if newPassword != confirmPassword then Some(PasswordsDiffer)
    else if |newPassword| < MinPasswordLength then Some(PasswordTooShort)
    else None
  }

  /** The page's state. */
  class ResetPasswordView {
    const email: string
    var otp: string
    var newPassword: string
    var confirmPassword: string
    var loading: bool
    var toast: Option<Toast>

    /** What the code field can hold. */
    predicate Valid()
      reads this
    {
      |otp| <= CodeLength && AllDigits(otp)
    }

    /** `router.query.email || ''`. */
    constructor (queryEmail: Option<string>)
      ensures email == queryEmail.GetOr("") && otp == "" && newPassword == "" && confirmPassword == ""
      ensures !loading && toast.None? && Valid()
    {
      email := queryEmail.GetOr("");
      otp := "";
      newPassword := "";
      confirmPassword := "";
      loading := false;
      toast := None;
    }

    method EnterCode(entered: string)
      modifies this
      ensures otp == CodeInput(entered) && Valid()
      ensures newPassword == old(newPassword) && confirmPassword == old(confirmPassword)
      ensures loading == old(loading) && toast == old(toast)
    {
      otp := CodeInput(entered);
    }

    /** `handleSubmit` up to the request: a request is sent exactly when
        the passwords agree and are long enough; otherwise the error is
        shown and loading ends. */
    method Submit() returns (request: Option<ResetRequest>)
      modifies this
      ensures var error := PasswordError(newPassword, confirmPassword);
        && (request.Some? <==> error.None?)
        && (error.Some? ==> toast == Some(Toast(error.value, true)) && !loading)
        && (error.None? ==> request.value == ResetRequest(email, otp, newPassword) && loading && toast.None?)
      ensures otp == old(otp) && newPassword == old(newPassword) && confirmPassword == old(confirmPassword)
    {
      loading := true;
      toast := None;
      var error := PasswordError(newPassword, confirmPassword);
      if error.Some? {
        toast := Some(Toast(error.value, true));
        loading := false;
        return None;
      }
      request := Some(ResetRequest(email, otp, newPassword));
    }

    /** The answer: success, the handler's message (or a fallback), or a
        connection error; loading ends in every case. `reached` is false
        when the request did not complete. */
    method Respond(reached: bool, ok: bool, message: Option<string>)
      modifies this
      ensures !loading
      ensures !reached ==> toast == Some(Toast(ConnectionError, true))
      ensures reached && ok ==> toast == Some(Toast(ResetDone, false))
      ensures reached && !ok ==> toast == Some(Toast(StrOr(message, ResetFailed), true))
      ensures otp == old(otp) && newPassword == old(newPassword) && confirmPassword == old(confirmPassword)
    {
      if !reached {
        toast := Some(Toast(ConnectionError, true));
      } else if ok {
        toast := Some(Toast(ResetDone, false));
      } else {
        toast := Some(Toast(StrOr(message, ResetFailed), true));
      }
      loading := false;
    }
  }
}

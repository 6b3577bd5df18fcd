/** The two code-verification pages: `VerifyEmail` (a mock check against a fixed code)
    and `VerifyResetCode` (a server check). Each holds the OTP buffer, a 600-second
    code countdown and a 60-second resend cooldown, and records navigations and toasts.
    The server, the authentication context and the timers' seconds are inputs. */
module VerifyPages {
  import opened Text
  import OtpBuffer
  import CountdownHook
  import AuthWidgets

  const OTP_LENGTH: nat := 6
  const CODE_SECONDS: nat := 600
  const RESEND_SECONDS: nat := 60

  const MOCK_CODE: string := "123456"
  const MSG_INCOMPLETE: string := "Please enter all 6 digits"
  const MSG_EXPIRED: string := "Verification code has expired. Please request a new one."
  const MSG_MOCK_INVALID: string := "Invalid verification code. Please try again."
  const MSG_REQUEST_FIRST: string := "Please request a password reset first"
  const MSG_VERIFIED: string := "Code verified successfully!"
  const MSG_RESENT: string := "New verification code sent to your email!"

  const FORGOT_PASSWORD_PAGE: string := "/forgot-password"
  const RESET_PASSWORD_PAGE: string := "/reset-password"

  datatype NavState = NoState | ResetState(email: string, verified: bool, resetToken: Option<string>)
  datatype Navigation = Navigation(path: string, state: NavState, replace: bool)
  datatype Toast = SuccessToast(text: string) | ErrorToast(text: string)

  /** What a rejected server call carries: `error.response?.status` and
      `error.response?.data?.message`. */
  datatype ServerError = ServerError(status: Option<int>, message: Option<string>)
  datatype VerifyReply = Verified(resetToken: Option<string>) | VerifyFailed(error: ServerError)
  datatype ResendReply = Resent | ResendFailed(error: ServerError)


  /** `location.state?.email || ''`. */
  function EmailFromState(email: Option<string>): (e: string)
    ensures Truthy(email) ==> e == email.value
    ensures !Truthy(email) ==> e == ""
  {
    if Truthy(email) then email.value else ""
  }

  /** The verify-failure message: 400 shows the server's message or a fallback, 404 and
      410 have fixed texts, any other failure shows the server's message when there is
      one, else the default. */
  function VerifyErrorMessage(e: ServerError): (m: string)
    ensures e.status == Some(400) ==> m == (if Truthy(e.message) then e.message.value else "Invalid verification code")
    ensures e.status == Some(404) ==> m == "User not found. Please try again."
    ensures e.status == Some(410) ==> m == MSG_EXPIRED
    ensures e.status != Some(400) && e.status != Some(404) && e.status != Some(410) ==>
              m == (if Truthy(e.message) then e.message.value else "Verification failed. Please try again.")
  {
    if e.status == Some(400) then (if Truthy(e.message) then e.message.value else "Invalid verification code")
    else if e.status == Some(404) then "User not found. Please try again."
    else if e.status == Some(410) then MSG_EXPIRED
    else if Truthy(e.message) then e.message.value
    else "Verification failed. Please try again."
  }

  /** The resend-failure message: 429 first, then the server's message, then the default. */
  function ResendErrorMessage(e: ServerError): (m: string)
    ensures e.status == Some(429) ==> m == "Too many requests. Please wait a moment."
    ensures e.status != Some(429) ==>
              m == (if Truthy(e.message) then e.message.value else "Failed to resend code. Please try again.")
  {
    if e.status == Some(429) then "Too many requests. Please wait a moment."
    else if Truthy(e.message) then e.message.value
    else "Failed to resend code. Please try again."
  }

  /** Every failure produces a non-empty message, so the page's error box always shows. */
  lemma ErrorMessagesNonEmpty(e: ServerError)
    ensures VerifyErrorMessage(e) != "" && ResendErrorMessage(e) != ""
  {
  }

  /** A server message wins only where the status does not fix the text: 404 and 410 for
      verification, 429 for resend. */
  lemma ServerMessageShownUnlessFixed(e: ServerError)
    requires Truthy(e.message)
    ensures VerifyErrorMessage(e) == e.message.value <==>
              e.status !in {Some(404), Some(410)}
              || (e.status == Some(404) && e.message.value == "User not found. Please try again.")
              || (e.status == Some(410) && e.message.value == MSG_EXPIRED)
    ensures e.status != Some(429) ==> ResendErrorMessage(e) == e.message.value
  {
  }

  // ---------------------------------------------------------------- VerifyEmail

  class VerifyEmailPage {
    const email: string
    const timer: CountdownHook.Countdown
    const resendTimer: CountdownHook.Countdown
    var otp: seq<string>
    var loading: bool
    var error: string
    var navigations: seq<Navigation>

    predicate Valid()
      reads this
    {
      timer != resendTimer && timer.initialTime == CODE_SECONDS && resendTimer.initialTime == RESEND_SECONDS
    }

    constructor (stateEmail: Option<string>)
      ensures Valid() && fresh(timer) && fresh(resendTimer)
      ensures email == EmailFromState(stateEmail)
      ensures otp == OtpBuffer.Empty(OTP_LENGTH) && !loading && error == "" && navigations == []
      ensures timer.State() == CountdownHook.Initial(CODE_SECONDS)
      ensures resendTimer.State() == CountdownHook.Initial(RESEND_SECONDS)
    {
      email := EmailFromState(stateEmail);
      timer := new CountdownHook.Countdown(CODE_SECONDS);
      resendTimer := new CountdownHook.Countdown(RESEND_SECONDS);
      otp := OtpBuffer.Empty(OTP_LENGTH);
      loading := false;
      error := "";
      navigations := [];
    }

    /** The mount effect as written: without an e-mail, go back; otherwise start the code
        countdown. The resend cooldown is not started. */
    method Mount()
      requires Valid()
      modifies this`navigations, timer
      ensures Valid()
      ensures email == "" ==> navigations == old(navigations) + [Navigation(FORGOT_PASSWORD_PAGE, NoState, false)]
                              && timer.State() == old(timer.State())
      ensures email != "" ==> navigations == old(navigations) && timer.State() == CountdownHook.StartAt(CODE_SECONDS)
      ensures resendTimer.State() == old(resendTimer.State())
    {
      if email == "" {
        navigations := navigations + [Navigation(FORGOT_PASSWORD_PAGE, NoState, false)];
        return;
      }
      timer.Start(Some(CODE_SECONDS));
    }

    /** The mount effect as evidently intended: the resend cooldown starts with the code. */
    method MountCorrected()
      requires Valid()
      modifies this`navigations, timer, resendTimer
      ensures Valid()
      ensures email == "" ==> navigations == old(navigations) + [Navigation(FORGOT_PASSWORD_PAGE, NoState, false)]
                              && timer.State() == old(timer.State()) && resendTimer.State() == old(resendTimer.State())
      ensures email != "" ==> navigations == old(navigations)
                              && timer.State() == CountdownHook.StartAt(CODE_SECONDS)
                              && resendTimer.State() == CountdownHook.StartAt(RESEND_SECONDS)
    {
      if email == "" {
        navigations := navigations + [Navigation(FORGOT_PASSWORD_PAGE, NoState, false)];
        return;
      }
      timer.Start(Some(CODE_SECONDS));
      resendTimer.Start(Some(RESEND_SECONDS));
    }

    /** One second for both countdowns. */
    method Tick()
      requires Valid()
      modifies timer, resendTimer
      ensures Valid()
      ensures timer.State() == CountdownHook.Step(old(timer.State()))
      ensures resendTimer.State() == CountdownHook.Step(old(resendTimer.State()))
    {
      timer.Tick();
      resendTimer.Tick();
    }

    /** A keystroke in box `index`; the boxes are disabled while loading or expired. */
    method EnterDigit(index: nat, val: string)
      requires index < |otp|
      modifies this`otp
      ensures loading || timer.countdown == 0 ==> otp == old(otp)
      ensures !(loading || timer.countdown == 0) ==>
                var e := AuthWidgets.TypeDigit(old(otp), index, val);
                otp == (if e.Changed? then e.newValue else old(otp))
    {
      if loading || timer.countdown == 0 {
        return;
      }
      var e := AuthWidgets.TypeDigit(otp, index, val);
      if e.Changed? {
        otp := e.newValue;
      }
    }

    /** `handleSubmit`, with the 2-second mock delay collapsed. */
    method HandleSubmit()
      requires Valid()
      modifies this`otp, this`loading, this`error, this`navigations
      ensures Valid()
      ensures !OtpBuffer.IsComplete(old(otp)) ==>
                error == MSG_INCOMPLETE && otp == old(otp) && navigations == old(navigations) && loading == old(loading)
      ensures OtpBuffer.IsComplete(old(otp)) && timer.countdown == 0 ==>
                error == MSG_EXPIRED && otp == old(otp) && navigations == old(navigations) && loading == old(loading)
      ensures OtpBuffer.IsComplete(old(otp)) && timer.countdown > 0 && OtpBuffer.Value(old(otp)) == MOCK_CODE ==>
                navigations == old(navigations) + [Navigation(RESET_PASSWORD_PAGE, ResetState(email, true, None), false)]
                && error == "" && !loading && otp == old(otp)
      ensures OtpBuffer.IsComplete(old(otp)) && timer.countdown > 0 && OtpBuffer.Value(old(otp)) != MOCK_CODE ==>
                error == MSG_MOCK_INVALID && otp == OtpBuffer.Empty(OTP_LENGTH)
                && navigations == old(navigations) && !loading
    {
      error := "";
      if !OtpBuffer.IsComplete(otp) {
        error := MSG_INCOMPLETE;
        return;
      }
      if timer.countdown == 0 {
        error := MSG_EXPIRED;
        return;
      }
      loading := true;
      // the setTimeout callback
      loading := false;
      if OtpBuffer.Value(otp) == MOCK_CODE {
        navigations := navigations + [Navigation(RESET_PASSWORD_PAGE, ResetState(email, true, None), false)];
      } else {
        error := MSG_MOCK_INVALID;
        otp := OtpBuffer.Empty(OTP_LENGTH);
      }
    }

    /** `handleResend`: ignored while the cooldown runs; otherwise clear the error and the
        boxes and restart both countdowns. `accepted` says whether the guard let it through. */
    method HandleResend() returns (accepted: bool)
      requires Valid()
      modifies this`otp, this`error, timer, resendTimer
      ensures Valid()
      ensures accepted <==> old(resendTimer.countdown) == 0
      ensures !accepted ==> otp == old(otp) && error == old(error)
                            && timer.State() == old(timer.State()) && resendTimer.State() == old(resendTimer.State())
      ensures accepted ==> otp == OtpBuffer.Empty(OTP_LENGTH) && error == ""
                           && timer.State() == CountdownHook.StartAt(CODE_SECONDS)
                           && resendTimer.State() == CountdownHook.StartAt(RESEND_SECONDS)
    {
      if resendTimer.countdown > 0 {
        return false;
      }
      error := "";
      otp := OtpBuffer.Empty(OTP_LENGTH);
      timer.Start(Some(CODE_SECONDS));
      resendTimer.Start(Some(RESEND_SECONDS));
      return true;
    }
  }

  /** As written, the cooldown shown after mount never runs: however long the user waits,
      the resend button stays disabled ("Resend Code in 60s") and the handler refuses. */
  method VerifyEmailResendAsWritten(stateEmail: string, seconds: nat) returns (shown: nat, accepted: bool)
    requires stateEmail != ""
    ensures shown == RESEND_SECONDS
    ensures !accepted
  {
    var page := new VerifyEmailPage(Some(stateEmail));
    page.Mount();
    var i := 0;
    while i < seconds
      invariant page.Valid() && fresh(page.timer) && fresh(page.resendTimer)
      invariant page.resendTimer.State() == CountdownHook.Initial(RESEND_SECONDS)
    {
      page.Tick();
      i := i + 1;
    }
    shown := page.resendTimer.countdown;
    accepted := page.HandleResend();
  }

  /** With the cooldown started on mount, the resend is refused for the first minute and
      accepted from the sixtieth second on. */
  method VerifyEmailResendCorrected(stateEmail: string, seconds: nat) returns (accepted: bool)
    requires stateEmail != ""
    ensures accepted <==> seconds >= RESEND_SECONDS
  {
    var page := new VerifyEmailPage(Some(stateEmail));
    page.MountCorrected();
    var i := 0;
    while i < seconds
      invariant i <= seconds
      invariant page.Valid() && fresh(page.timer) && fresh(page.resendTimer)
      invariant page.resendTimer.State() == CountdownHook.Steps(CountdownHook.StartAt(RESEND_SECONDS), i)
    {
      StepsSucc(CountdownHook.StartAt(RESEND_SECONDS), i);
      page.Tick();
      i := i + 1;
    }
    CountdownHook.StepsRunning(CountdownHook.StartAt(RESEND_SECONDS), seconds);
    accepted := page.HandleResend();
  }

  /** One more second after `n`. */
  lemma {:induction false} StepsSucc(t: CountdownHook.Timer, n: nat)
    ensures CountdownHook.Steps(t, n + 1) == CountdownHook.Step(CountdownHook.Steps(t, n))
    decreases n
  {
    if n > 0 {
      StepsSucc(CountdownHook.Step(t), n - 1);
    }
  }

  // ---------------------------------------------------------------- VerifyResetCode

  class VerifyResetCodePage {
    const email: string
    const fromForgotPassword: bool
    const isAuthenticated: bool
    const timer: CountdownHook.Countdown
    const resendTimer: CountdownHook.Countdown
    var otp: seq<string>
    var loading: bool
    var error: string
    var navigations: seq<Navigation>
    var toasts: seq<Toast>

    predicate Valid()
      reads this
    {
      timer != resendTimer && timer.initialTime == CODE_SECONDS && resendTimer.initialTime == RESEND_SECONDS
    }

    /** `location.state?.email || ''`, `location.state?.fromForgotPassword || false`, and
        the authentication context's flag. */
    constructor (stateEmail: Option<string>, stateFromForgotPassword: Option<bool>, isAuthenticated: bool)
      ensures Valid() && fresh(timer) && fresh(resendTimer)
      ensures email == EmailFromState(stateEmail)
      ensures fromForgotPassword == (stateFromForgotPassword == Some(true))
      ensures this.isAuthenticated == isAuthenticated
      ensures otp == OtpBuffer.Empty(OTP_LENGTH) && !loading && error == ""
      ensures navigations == [] && toasts == []
      ensures timer.State() == CountdownHook.Initial(CODE_SECONDS)
      ensures resendTimer.State() == CountdownHook.Initial(RESEND_SECONDS)
    {
      email := EmailFromState(stateEmail);
      fromForgotPassword := stateFromForgotPassword == Some(true);
      this.isAuthenticated := isAuthenticated;
      timer := new CountdownHook.Countdown(CODE_SECONDS);
      resendTimer := new CountdownHook.Countdown(RESEND_SECONDS);
      otp := OtpBuffer.Empty(OTP_LENGTH);
      loading := false;
      error := "";
      navigations := [];
      toasts := [];
    }

    predicate CameFromForgotPassword()
      reads this
    {
      email != "" && fromForgotPassword
    }

    /** The guard effect: without the e-mail and the flag, toast and go back; otherwise
        start both countdowns. */
    method GuardEffect()
      requires Valid()
      modifies this`navigations, this`toasts, timer, resendTimer
      ensures Valid()
      ensures !CameFromForgotPassword() ==>
                toasts == old(toasts) + [ErrorToast(MSG_REQUEST_FIRST)]
                && navigations == old(navigations) + [Navigation(FORGOT_PASSWORD_PAGE, NoState, true)]
                && timer.State() == old(timer.State()) && resendTimer.State() == old(resendTimer.State())
      ensures CameFromForgotPassword() ==>
                toasts == old(toasts) && navigations == old(navigations)
                && timer.State() == CountdownHook.StartAt(CODE_SECONDS)
                && resendTimer.State() == CountdownHook.StartAt(RESEND_SECONDS)
    {
      if email == "" || !fromForgotPassword {
        toasts := toasts + [ErrorToast(MSG_REQUEST_FIRST)];
        navigations := navigations + [Navigation(FORGOT_PASSWORD_PAGE, NoState, true)];
        return;
      }
      timer.Start(Some(CODE_SECONDS));
      resendTimer.Start(Some(RESEND_SECONDS));
    }

    /** Mount: the signed-in redirect effect, then the guard effect. */
    method Mount()
      requires Valid()
      modifies this`navigations, this`toasts, timer, resendTimer
      ensures Valid()
      ensures var home := if isAuthenticated then [Navigation("/", NoState, true)] else [];
              if CameFromForgotPassword() then
                navigations == old(navigations) + home && toasts == old(toasts)
                && timer.State() == CountdownHook.StartAt(CODE_SECONDS)
                && resendTimer.State() == CountdownHook.StartAt(RESEND_SECONDS)
              else
                navigations == old(navigations) + home + [Navigation(FORGOT_PASSWORD_PAGE, NoState, true)]
                && toasts == old(toasts) + [ErrorToast(MSG_REQUEST_FIRST)]
    {
      if isAuthenticated {
        navigations := navigations + [Navigation("/", NoState, true)];
      }
      GuardEffect();
    }

    /** One second as written: both countdowns tick, and the re-render re-runs the guard
        effect, because `start` and `startResend` are new functions on every render and
        are listed among its dependencies. */
    method Tick()
      requires Valid()
      modifies this`navigations, this`toasts, timer, resendTimer
      ensures Valid()
      ensures CameFromForgotPassword() ==>
                timer.State() == CountdownHook.StartAt(CODE_SECONDS)
                && resendTimer.State() == CountdownHook.StartAt(RESEND_SECONDS)
                && navigations == old(navigations) && toasts == old(toasts)
      ensures !CameFromForgotPassword() ==>
                timer.State() == CountdownHook.Step(old(timer.State()))
                && resendTimer.State() == CountdownHook.Step(old(resendTimer.State()))
                && toasts == old(toasts) + [ErrorToast(MSG_REQUEST_FIRST)]
                && navigations == old(navigations) + [Navigation(FORGOT_PASSWORD_PAGE, NoState, true)]
    {
      timer.Tick();
      resendTimer.Tick();
      GuardEffect();
    }

    /** One second with the effect depending only on the location state: the countdowns
        tick and nothing else happens. */
    method TickCorrected()
      requires Valid()
      modifies timer, resendTimer
      ensures Valid()
      ensures timer.State() == CountdownHook.Step(old(timer.State()))
      ensures resendTimer.State() == CountdownHook.Step(old(resendTimer.State()))
    {
      timer.Tick();
      resendTimer.Tick();
    }

    /** `handleSubmit` with the server's answer as input and the 1.5-second redirect delay
        collapsed. `called` says whether `verifyResetCode` was reached. */
    method HandleSubmit(reply: VerifyReply) returns (called: bool)
      requires Valid()
      modifies this`otp, this`loading, this`error, this`navigations, this`toasts
      ensures Valid()
      ensures called <==> OtpBuffer.IsComplete(old(otp)) && timer.countdown > 0
      ensures !OtpBuffer.IsComplete(old(otp)) ==> error == MSG_INCOMPLETE
      ensures OtpBuffer.IsComplete(old(otp)) && timer.countdown == 0 ==> error == MSG_EXPIRED
      ensures !called ==> otp == old(otp) && navigations == old(navigations) && toasts == old(toasts)
                          && loading == old(loading)
      ensures called ==> !loading
      ensures called && reply.Verified? ==>
                error == "" && otp == old(otp)
                && toasts == old(toasts) + [SuccessToast(MSG_VERIFIED)]
                && navigations == old(navigations) +
                     [Navigation(RESET_PASSWORD_PAGE, ResetState(email, true, reply.resetToken), true)]
      ensures called && reply.VerifyFailed? ==>
                error == VerifyErrorMessage(reply.error)
                && toasts == old(toasts) + [ErrorToast(VerifyErrorMessage(reply.error))]
                && otp == OtpBuffer.Empty(OTP_LENGTH) && navigations == old(navigations)
    {
      error := "";
      if !OtpBuffer.IsComplete(otp) {
        error := MSG_INCOMPLETE;
        return false;
      }
      if timer.countdown == 0 {
        error := MSG_EXPIRED;
        return false;
      }
      loading := true;
      match reply {
        case Verified(resetToken) =>
          toasts := toasts + [SuccessToast(MSG_VERIFIED)];
          navigations := navigations + [Navigation(RESET_PASSWORD_PAGE, ResetState(email, true, resetToken), true)];
        case VerifyFailed(e) =>
          var errorMessage := VerifyErrorMessage(e);
          error := errorMessage;
          toasts := toasts + [ErrorToast(errorMessage)];
          otp := OtpBuffer.Empty(OTP_LENGTH);
      }
      loading := false;
      return true;
    }

    /** `handleResend` with the server's answer as input. Only a successful resend resets
        the boxes and restarts the countdowns; a failure only toasts. */
    method HandleResend(reply: ResendReply) returns (accepted: bool)
      requires Valid()
      modifies this`otp, this`loading, this`error, this`toasts, timer, resendTimer
      ensures Valid()
      ensures accepted <==> old(resendTimer.countdown) == 0
      ensures !accepted ==> otp == old(otp) && error == old(error) && loading == old(loading)
                            && toasts == old(toasts)
                            && timer.State() == old(timer.State()) && resendTimer.State() == old(resendTimer.State())
      ensures accepted ==> error == "" && !loading
      ensures accepted && reply.Resent? ==>
                toasts == old(toasts) + [SuccessToast(MSG_RESENT)]
                && otp == OtpBuffer.Empty(OTP_LENGTH)
                && timer.State() == CountdownHook.StartAt(CODE_SECONDS)
                && resendTimer.State() == CountdownHook.StartAt(RESEND_SECONDS)
      ensures accepted && reply.ResendFailed? ==>
                toasts == old(toasts) + [ErrorToast(ResendErrorMessage(reply.error))]
                && otp == old(otp)
                && timer.State() == old(timer.State()) && resendTimer.State() == old(resendTimer.State())
    {
      if resendTimer.countdown > 0 {
        return false;
      }
      error := "";
      loading := true;
      match reply {
        case Resent =>
          toasts := toasts + [SuccessToast(MSG_RESENT)];
          otp := OtpBuffer.Empty(OTP_LENGTH);
          timer.Start(Some(CODE_SECONDS));
          resendTimer.Start(Some(RESEND_SECONDS));
        case ResendFailed(e) =>
          toasts := toasts + [ErrorToast(ResendErrorMessage(e))];
      }
      loading := false;
      return true;
    }
  }

  /** As written, the countdowns are restarted after every second: the code never expires
      and the resend cooldown never ends, however long the page stays open. */
  method ResetCodeTimersAsWritten(stateEmail: string, seconds: nat, reply: ResendReply)
    returns (codeLeft: nat, cooldownLeft: nat, resendAccepted: bool)
    requires stateEmail != ""
    ensures codeLeft == CODE_SECONDS && cooldownLeft == RESEND_SECONDS
    ensures !resendAccepted
  {
    var page := new VerifyResetCodePage(Some(stateEmail), Some(true), false);
    page.Mount();
    var i := 0;
    while i < seconds
      invariant page.Valid() && fresh(page.timer) && fresh(page.resendTimer)
      invariant page.CameFromForgotPassword()
      invariant page.timer.State() == CountdownHook.StartAt(CODE_SECONDS)
      invariant page.resendTimer.State() == CountdownHook.StartAt(RESEND_SECONDS)
    {
      page.Tick();
      i := i + 1;
    }
    codeLeft := page.timer.countdown;
    cooldownLeft := page.resendTimer.countdown;
    resendAccepted := page.HandleResend(reply);
  }

  /** With the effect run once, the resend is accepted from the sixtieth second on, and
      after ten minutes a complete code is refused as expired without a server call. */
  method ResetCodeTimersCorrected(stateEmail: string, seconds: nat, resend: ResendReply, verify: VerifyReply)
    returns (resendAccepted: bool, verifyCalled: bool)
    requires stateEmail != ""
    ensures resendAccepted <==> seconds >= RESEND_SECONDS
    ensures seconds >= CODE_SECONDS ==> !verifyCalled
    ensures seconds < RESEND_SECONDS ==> verifyCalled
  {
    var page := new VerifyResetCodePage(Some(stateEmail), Some(true), false);
    page.Mount();
    var i := 0;
    while i < seconds
      invariant i <= seconds
      invariant page.Valid() && fresh(page.timer) && fresh(page.resendTimer)
      invariant page.timer.State() == CountdownHook.Steps(CountdownHook.StartAt(CODE_SECONDS), i)
      invariant page.resendTimer.State() == CountdownHook.Steps(CountdownHook.StartAt(RESEND_SECONDS), i)
    {
      StepsSucc(CountdownHook.StartAt(CODE_SECONDS), i);
      StepsSucc(CountdownHook.StartAt(RESEND_SECONDS), i);
      page.TickCorrected();
      i := i + 1;
    }
    CountdownHook.StepsRunning(CountdownHook.StartAt(CODE_SECONDS), seconds);
    CountdownHook.StepsRunning(CountdownHook.StartAt(RESEND_SECONDS), seconds);
    // the user fills the six boxes
    page.otp := ["1", "2", "3", "4", "5", "6"];
    assert OtpBuffer.IsComplete(page.otp);
    verifyCalled := page.HandleSubmit(verify);
    resendAccepted := page.HandleResend(resend);
  }
}

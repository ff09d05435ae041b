/** The sign-in screen (components/Login.tsx): the three form modes, the
    submit and demo-login callbacks, and the password-recovery status.

    The parent's `onLogin` / `onRegister` callbacks are returned as a value
    saying which one the handler calls and with what; `recoverPassword` is
    split at its `await`, with its outcome as input. */
module Login {

  datatype AuthMode = LoginMode | RegisterMode | RecoverMode

  datatype RecoveryStatus = Idle | Sending | Sent

  /** Which parent callback a handler invokes, with its arguments. */
  datatype Callback =
    | NoCall
    | OnLogin(email: string, password: string)
    | OnRegister(name: string, email: string, password: string)

  /** The password the demo buttons use. */
  const DemoPassword: string := "password"

  /** `handleSubmit`: nothing while a sign-in is in flight; otherwise the
      register form registers and the login form logs in. */
  function SubmitCall(mode: AuthMode, isLoggingIn: bool, name: string, email: string, password: string): (call: Callback)
    ensures isLoggingIn ==> call == NoCall
    ensures !isLoggingIn && mode == RegisterMode ==> call == OnRegister(name, email, password)
    ensures !isLoggingIn && mode == LoginMode ==> call == OnLogin(email, password)
    ensures mode == RecoverMode ==> call == NoCall
  {
    if isLoggingIn then NoCall
    else if mode == RegisterMode then OnRegister(name, email, password)
    else if mode == LoginMode then OnLogin(email, password)
    else NoCall
  }

  /** The mode the "switch" link moves to. */
  function SwitchedMode(mode: AuthMode): (next: AuthMode)
    ensures mode == LoginMode ==> next == RegisterMode
    ensures mode != LoginMode ==> next == LoginMode
    ensures next != RecoverMode
  {
    if mode == LoginMode then RegisterMode else LoginMode
  }

  /** From the login or register form, the link toggles between the two:
      following it twice comes back. */
  lemma SwitchTwice(mode: AuthMode)
    requires mode != RecoverMode
    ensures SwitchedMode(SwitchedMode(mode)) == mode
    ensures SwitchedMode(mode) != mode
  {
  }

  class LoginForm {
    var authMode: AuthMode
    var name: string
    var email: string
    var password: string
    var showPassword: bool
    var recoveryStatus: RecoveryStatus

    /** The initial state of `useState`. */
    constructor ()
      ensures authMode == LoginMode && name == "" && email == "" && password == ""
      ensures !showPassword && recoveryStatus == Idle
    {
      authMode := LoginMode;
      name := "";
      email := "";
      password := "";
      showPassword := false;
      recoveryStatus := Idle;
    }

    /** `setAuthMode(mode)` followed by the effect on `[authMode]`: a
        change of mode resets the recovery status; setting the same mode
        again does not re-run the effect. */
    method SetAuthMode(mode: AuthMode)
      modifies this
      ensures authMode == mode
      ensures recoveryStatus == (if mode != old(authMode) then Idle else old(recoveryStatus))
      ensures name == old(name) && email == old(email) && password == old(password)
      ensures showPassword == old(showPassword)
    {
      var changed := mode != authMode;
      authMode := mode;
      if changed {
        recoveryStatus := Idle;
      }
    }

    /** The link under the form: login and register swap, and the name
        field is cleared. */
    method SwitchMode()
      modifies this
      ensures authMode == SwitchedMode(old(authMode)) && name == ""
      ensures recoveryStatus == (if authMode != old(authMode) then Idle else old(recoveryStatus))
      ensures email == old(email) && password == old(password) && showPassword == old(showPassword)
    {
      SetAuthMode(if authMode == LoginMode then RegisterMode else LoginMode);
      name := "";
    }

    /** "Esqueceu a senha?" on the login form. */
    method ForgotPassword()
      modifies this
      ensures authMode == RecoverMode
      ensures recoveryStatus == (if old(authMode) != RecoverMode then Idle else old(recoveryStatus))
      ensures name == old(name) && email == old(email) && password == old(password)
      ensures showPassword == old(showPassword)
    {
      SetAuthMode(RecoverMode);
    }

    /** The "back to login" link after a sent link and the cancel button
        of the recovery form both return to the login form with the
        recovery status reset. */
    method BackToLogin()
      requires authMode == RecoverMode
      modifies this
      ensures authMode == LoginMode && recoveryStatus == Idle
      ensures name == old(name) && email == old(email) && password == old(password)
      ensures showPassword == old(showPassword)
    {
      SetAuthMode(LoginMode);
    }

    /** `handleSubmit`: the callback invoked; the form itself is left as
        it is. */
    method HandleSubmit(isLoggingIn: bool) returns (call: Callback)
      ensures call == SubmitCall(authMode, isLoggingIn, name, email, password)
    {
      call := SubmitCall(authMode, isLoggingIn, name, email, password);
    }

    /** `handleRecoverPassword` up to its `await`. */
    method BeginRecover()
      modifies this
      ensures recoveryStatus == Sending
      ensures authMode == old(authMode) && email == old(email) && name == old(name) && password == old(password)
      ensures showPassword == old(showPassword)
    {
      recoveryStatus := Sending;
    }

    /** `handleRecoverPassword` after the call settled: sent on success,
        back to idle on failure. */
    method EndRecover(succeeded: bool)
      modifies this
      ensures recoveryStatus == (if succeeded then Sent else Idle)
      ensures authMode == old(authMode) && email == old(email) && name == old(name) && password == old(password)
      ensures showPassword == old(showPassword)
    {
      if succeeded {
        recoveryStatus := Sent;
      } else {
        recoveryStatus := Idle;
      }
    }

    /** A whole recovery request, with the statuses it shows in order. */
    method RecoverPassword(succeeded: bool) returns (shown: seq<RecoveryStatus>)
      modifies this
      ensures shown == [Sending, if succeeded then Sent else Idle]
      ensures recoveryStatus == shown[|shown| - 1]
      ensures authMode == old(authMode) && email == old(email) && password == old(password)
      ensures name == old(name) && showPassword == old(showPassword)
    {
      BeginRecover();
      shown := [recoveryStatus];
      EndRecover(succeeded);
      shown := shown + [recoveryStatus];
    }

    /** `handleDemoLogin(demoEmail)`: ignored while a sign-in is in flight;
        otherwise the form is filled with the demo account and the demo
        password, and login is called with exactly those. */
    method HandleDemoLogin(demoEmail: string, isLoggingIn: bool) returns (call: Callback)
      modifies this
      ensures isLoggingIn ==> call == NoCall && email == old(email) && password == old(password)
      ensures !isLoggingIn ==> email == demoEmail && password == DemoPassword && call == OnLogin(email, password)
      ensures authMode == old(authMode) && name == old(name) && recoveryStatus == old(recoveryStatus)
      ensures showPassword == old(showPassword)
    {
      if isLoggingIn {
        return NoCall;
      }
      email := demoEmail;
      password := DemoPassword;
      call := OnLogin(demoEmail, DemoPassword);
    }

    /** The eye button. */
    method ToggleShowPassword()
      modifies this
      ensures showPassword == !old(showPassword)
      ensures authMode == old(authMode) && email == old(email) && password == old(password)
      ensures name == old(name) && recoveryStatus == old(recoveryStatus)
    {
      showPassword := !showPassword;
    }
  }
}

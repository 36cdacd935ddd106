/**
 * The sign-in page: three modes (log in, sign up, forgotten password), the
 * field checks made before calling the identity provider, the mapping of
 * the provider's error codes to messages and what each outcome leaves on
 * the page. The provider's answers are parameters; each asynchronous
 * handler is split into the part before its call and the part after.
 */
module AuthPage {
  import opened Types

  datatype AuthMode = Login | Signup | Forgot

  const BadCredentialsText: string := "Adresse e-mail ou mot de passe incorrect."
  const EmailInUseText: string := "Cette adresse e-mail est déjà utilisée."
  const WeakPasswordText: string := "Le mot de passe doit contenir au moins 6 caractères."
  const InvalidEmailText: string := "L'adresse e-mail n'est pas valide."
  const GenericErrorText: string := "Une erreur est survenue. Veuillez réessayer."
  const EnterEmailText: string := "Veuillez entrer votre adresse e-mail."
  const FillAllText: string := "Veuillez remplir tous les champs."

  const UserNotFound: string := "auth/user-not-found"
  const WrongPassword: string := "auth/wrong-password"
  const EmailAlreadyInUse: string := "auth/email-already-in-use"
  const WeakPassword: string := "auth/weak-password"
  const InvalidEmail: string := "auth/invalid-email"

  /** The codes that have a message of their own (the first two share one). */
  const KnownCodes: set<string> := {UserNotFound, WrongPassword, EmailAlreadyInUse, WeakPassword, InvalidEmail}

  /**
   * The message shown for a provider error code: one shared message for an
   * unknown user or a wrong password, one each for an address in use, a
   * weak password and an invalid address, and a generic one for any other.
   */
  function FirebaseErrorMessage(code: string): (msg: string)
    ensures code == UserNotFound || code == WrongPassword ==> msg == BadCredentialsText
    ensures code == EmailAlreadyInUse ==> msg == EmailInUseText
    ensures code == WeakPassword ==> msg == WeakPasswordText
    ensures code == InvalidEmail ==> msg == InvalidEmailText
    ensures code !in KnownCodes ==> msg == GenericErrorText
  {
    if code == UserNotFound || code == WrongPassword then BadCredentialsText
    else if code == EmailAlreadyInUse then EmailInUseText
    else if code == WeakPassword then WeakPasswordText
    else if code == InvalidEmail then InvalidEmailText
    else GenericErrorText
  }

  /** Which codes a reader cannot tell apart by their message. */
  predicate SameClass(a: string, b: string)
  {
    a == b
    || ((a == UserNotFound || a == WrongPassword) && (b == UserNotFound || b == WrongPassword))
    || (a !in KnownCodes && b !in KnownCodes)
  }

  /**
   * Two codes give the same message exactly when they are the same code,
   * both are the credential codes, or both are codes without a message of
   * their own.
   */
  lemma SameMessageIffSameClass(a: string, b: string)
    ensures FirebaseErrorMessage(a) == FirebaseErrorMessage(b) <==> SameClass(a, b)
  {
    assert |BadCredentialsText| == 41 && |EmailInUseText| == 39 && |WeakPasswordText| == 52;
    assert |InvalidEmailText| == 34 && |GenericErrorText| == 44;
  }

  /** What a submit asks the identity provider for. */
  datatype AuthRequest = CreateAccount(email: string, password: string) | SignIn(email: string, password: string)

  /** The provider's answer: a credential (which may lack a user) or an error code. */
  datatype AuthResult = Credential(user: Option<User>) | Rejected(code: string)

  /** What the page reports to the application: the user and whether the account is new. */
  datatype LoginSuccess = LoginSuccess(user: User, isNewUser: bool)

  /** The message shown once a reset link was requested for `email`. */
  function ResetSentText(email: string): string
  {
    "Si un compte est associé à " + email + ", un lien de réinitialisation a été envoyé."
  }

  class AuthPage {
    var authMode: AuthMode
    var email: string
    var password: string
    var isProcessing: bool
    var error: Option<string>
    var message: Option<string>

    constructor ()
      ensures authMode == Login && email == "" && password == "" && !isProcessing
      ensures error == None && message == None
    {
      authMode := Login;
      email := "";
      password := "";
      isProcessing := false;
      error := None;
      message := None;
    }

    method EditEmail(value: string)
      modifies this
      ensures email == value
      ensures authMode == old(authMode) && password == old(password) && isProcessing == old(isProcessing)
      ensures error == old(error) && message == old(message)
    {
      email := value;
    }

    method EditPassword(value: string)
      modifies this
      ensures password == value
      ensures authMode == old(authMode) && email == old(email) && isProcessing == old(isProcessing)
      ensures error == old(error) && message == old(message)
    {
      password := value;
    }

    /** Clear password, error and message, and the e-mail only when asked to. */
    method ResetState(clearEmail: bool)
      modifies this
      ensures password == "" && error == None && message == None
      ensures email == if clearEmail then "" else old(email)
      ensures authMode == old(authMode) && isProcessing == old(isProcessing)
    {
      if clearEmail {
        email := "";
      }
      password := "";
      error := None;
      message := None;
    }

    /**
     * Switching mode always clears password, error and message; the e-mail
     * is cleared only when switching to the forgotten-password form.
     */
    method HandleModeChange(mode: AuthMode)
      modifies this
      ensures authMode == mode
      ensures password == "" && error == None && message == None
      ensures email == if mode == Forgot then "" else old(email)
      ensures isProcessing == old(isProcessing)
    {
      authMode := mode;
      ResetState(mode == Forgot);
    }

    /**
     * Asking for a reset link. With no e-mail an error is set and no request
     * is made; otherwise error and message are cleared, the page is busy and
     * the request goes out for the e-mail entered.
     */
    method BeginForgotPassword() returns (resetFor: Option<string>)
      modifies this
      ensures old(email) == "" ==>
        resetFor == None && error == Some(EnterEmailText)
        && message == old(message) && isProcessing == old(isProcessing)
      ensures old(email) != "" ==>
        resetFor == Some(email) && error == None && message == None && isProcessing
      ensures authMode == old(authMode) && email == old(email) && password == old(password)
    {
      if email == "" {
        error := Some(EnterEmailText);
        resetFor := None;
        return;
      }
      isProcessing := true;
      error := None;
      message := None;
      resetFor := Some(email);
    }

    /**
     * The reset request for `sentTo` settled: success shows the
     * confirmation for that address, failure the mapped error; either way
     * the page is no longer busy.
     */
    method FinishForgotPassword(sentTo: string, failureCode: Option<string>)
      modifies this
      ensures !isProcessing
      ensures failureCode.None? ==> message == Some(ResetSentText(sentTo)) && error == old(error)
      ensures failureCode.Some? ==>
        error == Some(FirebaseErrorMessage(failureCode.value)) && message == old(message)
      ensures authMode == old(authMode) && email == old(email) && password == old(password)
    {
      if failureCode.None? {
        message := Some(ResetSentText(sentTo));
      } else {
        error := Some(FirebaseErrorMessage(failureCode.value));
      }
      isProcessing := false;
    }

    /**
     * Submitting the log-in or sign-up form. With an empty e-mail or
     * password the "fill all fields" error is set and no request is made;
     * otherwise error and message are cleared, the page is busy and an
     * account creation (sign-up mode) or a sign-in (any other mode) goes out.
     */
    method BeginSubmit() returns (request: Option<AuthRequest>)
      modifies this
      ensures old(email) == "" || old(password) == "" ==>
        request == None && error == Some(FillAllText)
        && message == old(message) && isProcessing == old(isProcessing)
      ensures old(email) != "" && old(password) != "" ==>
        request == Some(if authMode == Signup then CreateAccount(email, password) else SignIn(email, password))
        && error == None && message == None && isProcessing
      ensures authMode == old(authMode) && email == old(email) && password == old(password)
    {
      if email == "" || password == "" {
        error := Some(FillAllText);
        request := None;
        return;
      }
      isProcessing := true;
      error := None;
      message := None;
      request := Some(if authMode == Signup then CreateAccount(email, password) else SignIn(email, password));
    }

    /**
     * The request settled. A credential with a user is reported to the
     * application as new exactly when it came from an account creation, and
     * the page stays busy; a credential without a user changes nothing; an
     * error shows its mapped message and the page is no longer busy.
     */
    method FinishSubmit(request: AuthRequest, result: AuthResult) returns (success: Option<LoginSuccess>)
      modifies this
      ensures result.Credential? && result.user.Some? ==>
        success == Some(LoginSuccess(result.user.value, request.CreateAccount?))
      ensures result.Credential? ==>
        isProcessing == old(isProcessing) && error == old(error)
      ensures result.Rejected? ==>
        success == None && error == Some(FirebaseErrorMessage(result.code)) && !isProcessing
      ensures result.Credential? && result.user.None? ==> success == None
      ensures authMode == old(authMode) && email == old(email) && password == old(password)
      ensures message == old(message)
    {
      success := None;
      match result
      case Credential(user) =>
        if user.Some? {
          success := Some(LoginSuccess(user.value, request.CreateAccount?));
        }
      case Rejected(code) =>
        error := Some(FirebaseErrorMessage(code));
        isProcessing := false;
    }
  }
}

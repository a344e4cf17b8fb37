/**
 * The sign-in dialog: a form in one of three modes (sign in, create an
 * account, reset the password), its validation, and the messages shown for
 * the identity provider's error codes. The provider calls themselves are
 * outside the model: each handler takes their outcome as a parameter,
 * `None` for success and `Some(code)` for a rejection carrying that code.
 * Toasts and the loading spinner's timing are not modelled.
 */
module AuthModal {
  import opened Common

  datatype Mode = SignIn | SignUp | Reset

  /** The four inputs, by their `name` attribute. */
  datatype FieldName = Email | Password | ConfirmPassword | DisplayName

  datatype FormData = FormData(email: string, password: string, confirmPassword: string, displayName: string)

  const EmptyForm := FormData("", "", "", "")

  function Get(f: FormData, name: FieldName): string
  {
    match name
    case Email => f.email
    case Password => f.password
    case ConfirmPassword => f.confirmPassword
    case DisplayName => f.displayName
  }

  /** `{ ...prev, [name]: value }`: one field replaced, the others kept. */
  function With(f: FormData, name: FieldName, value: string): (r: FormData)
    ensures Get(r, name) == value
    ensures forall other :: other != name ==> Get(r, other) == Get(f, other)
  {
    match name
    case Email => f.(email := value)
    case Password => f.(password := value)
    case ConfirmPassword => f.(confirmPassword := value)
    case DisplayName => f.(displayName := value)
  }

  const InvalidEmail := "Please enter a valid email address"
  const ShortPassword := "Password must be at least 6 characters long"
  const MissingName := "Please enter your full name"
  const PasswordMismatch := "Passwords do not match"

  /** `validateForm`: the message of the first check that fails, or `None` when the form may be sent. */
  function ValidationError(mode: Mode, f: FormData): (r: Option<string>)
    ensures f.email == "" || '@' !in f.email ==> r == Some(InvalidEmail)
    ensures r.Some? ==> r.value in {InvalidEmail, ShortPassword, MissingName, PasswordMismatch}
    ensures r == Some(ShortPassword) <==> f.email != "" && '@' in f.email && mode != Reset && |f.password| < 6
    ensures r == Some(MissingName) <==>
              f.email != "" && '@' in f.email && mode == SignUp && |f.password| >= 6 && IsBlank(f.displayName)
    ensures r == Some(PasswordMismatch) <==>
              f.email != "" && '@' in f.email && mode == SignUp && |f.password| >= 6 && !IsBlank(f.displayName)
              && f.password != f.confirmPassword
  {
    if f.email == "" || '@' !in f.email then Some(InvalidEmail)
    else if mode == Reset then None
    else if f.password == "" || |f.password| < 6 then Some(ShortPassword)
    else if mode == SignUp && IsBlank(f.displayName) then Some(MissingName)
    else if mode == SignUp && f.password != f.confirmPassword then Some(PasswordMismatch)
    else None
  }

  /** What each mode requires of a form, stated as one condition rather than a sequence of checks. */
  predicate Acceptable(mode: Mode, f: FormData)
  {
    && f.email != "" && '@' in f.email
    && (mode == SignIn ==> |f.password| >= 6)
    && (mode == SignUp ==> |f.password| >= 6 && !IsBlank(f.displayName) && f.password == f.confirmPassword)
  }

  /** The form is accepted exactly when it meets its mode's requirements. */
  lemma ValidationAcceptsExactly(mode: Mode, f: FormData)
    ensures ValidationError(mode, f).None? <==> Acceptable(mode, f)
  {
  }

  /** Reset mode looks at the email only. */
  lemma ResetChecksOnlyEmail(f: FormData, g: FormData)
    requires f.email == g.email
    ensures ValidationError(Reset, f) == ValidationError(Reset, g)
  {
  }

  /** Creating an account asks more than signing in, which asks more than a reset. */
  lemma ModesAreNested(f: FormData)
    ensures ValidationError(SignUp, f).None? ==> ValidationError(SignIn, f).None?
    ensures ValidationError(SignIn, f).None? ==> ValidationError(Reset, f).None?
  {
    ValidationAcceptsExactly(SignUp, f);
    ValidationAcceptsExactly(SignIn, f);
    ValidationAcceptsExactly(Reset, f);
  }

  /** The empty form is refused in every mode, on its email. */
  lemma EmptyFormRefused(mode: Mode)
    ensures ValidationError(mode, EmptyForm) == Some(InvalidEmail)
  {
  }

  /** The email and password error codes with a message of their own. */
  const EmailAuthMessages: map<string, string> := map[
    "auth/email-already-in-use" := "An account with this email already exists. Try signing in instead.",
    "auth/invalid-email" := "Please enter a valid email address.",
    "auth/weak-password" := "Password is too weak. Please use at least 6 characters.",
    "auth/user-not-found" := "No account found with this email. Try signing up instead.",
    "auth/wrong-password" := "Incorrect password. Please try again.",
    "auth/invalid-credential" := "Invalid email or password. Please check your credentials.",
    "auth/too-many-requests" := "Too many failed attempts. Please try again later."]

  const GenericEmailAuthError := "An error occurred. Please try again."

  /** The switch on `error.code` after an email sign-in, sign-up or reset fails. */
  function EmailAuthMessage(code: string): (m: string)
    ensures code in EmailAuthMessages ==> m == EmailAuthMessages[code]
    ensures code !in EmailAuthMessages ==> m == GenericEmailAuthError
  {
    if code in EmailAuthMessages then EmailAuthMessages[code] else GenericEmailAuthError
  }

  /** The message tells which of the seven codes occurred, or that it was none of them. */
  lemma EmailAuthMessageIdentifiesCode(a: string, b: string)
    requires EmailAuthMessage(a) == EmailAuthMessage(b)
    ensures a in EmailAuthMessages <==> b in EmailAuthMessages
    ensures a in EmailAuthMessages ==> a == b
  {
  }

  const GoogleMessages: map<string, string> := map[
    "auth/operation-not-allowed" := "Google sign-in is not enabled. Please use email/password or contact support.",
    "auth/unauthorized-domain" := "This domain is not authorized for Google sign-in. Please use email/password."]

  const GenericGoogleError := "Google sign-in failed. Please try again."

  /** The message after the Google sign-in popup fails. */
  function GoogleMessage(code: string): (m: string)
    ensures code in GoogleMessages ==> m == GoogleMessages[code]
    ensures code !in GoogleMessages ==> m == GenericGoogleError
  {
    if code in GoogleMessages then GoogleMessages[code] else GenericGoogleError
  }

  /** The Google messages tell their two codes apart from each other and from every other code. */
  lemma GoogleMessageIdentifiesCode(a: string, b: string)
    requires GoogleMessage(a) == GoogleMessage(b)
    ensures a in GoogleMessages <==> b in GoogleMessages
    ensures a in GoogleMessages ==> a == b
  {
  }

  class Dialog {
    var mode: Mode
    var showPassword: bool
    var loading: bool
    var error: string
    var formData: FormData

    constructor ()
      ensures mode == SignIn && !showPassword && !loading && error == "" && formData == EmptyForm
    {
      mode := SignIn;
      showPassword := false;
      loading := false;
      error := "";
      formData := EmptyForm;
    }

    /** `handleInputChange`: the named field takes the value and the error is cleared. */
    method HandleInputChange(name: FieldName, value: string)
      modifies this
      ensures formData == With(old(formData), name, value)
      ensures error == ""
      ensures mode == old(mode) && showPassword == old(showPassword) && loading == old(loading)
    {
      formData := With(formData, name, value);
      error := "";
    }

    /** `resetForm`: empty fields, no error, password hidden. */
    method ResetForm()
      modifies this
      ensures formData == EmptyForm && error == "" && !showPassword
      ensures mode == old(mode) && loading == old(loading)
    {
      formData := EmptyForm;
      error := "";
      showPassword := false;
    }

    /** `switchMode`: the new mode with a reset form. */
    method SwitchMode(newMode: Mode)
      modifies this
      ensures mode == newMode
      ensures formData == EmptyForm && error == "" && !showPassword
      ensures loading == old(loading)
    {
      mode := newMode;
      ResetForm();
    }

    /**
     * `handleEmailAuth`. A form that fails validation only shows its message.
     * Otherwise the provider is called: on success a reset returns to sign-in
     * mode and the other modes ask the caller to close the dialog
     * (`closeRequested`); on failure the code's message is shown.
     */
    method HandleEmailAuth(outcome: Option<string>) returns (closeRequested: bool)
      modifies this
      ensures ValidationError(old(mode), old(formData)).Some? ==>
                && error == ValidationError(old(mode), old(formData)).value
                && !closeRequested && mode == old(mode) && loading == old(loading)
      ensures ValidationError(old(mode), old(formData)).None? && outcome.Some? ==>
                error == EmailAuthMessage(outcome.value) && !closeRequested && mode == old(mode) && !loading
      ensures ValidationError(old(mode), old(formData)).None? && outcome.None? ==>
                && error == "" && !loading
                && (old(mode) == Reset ==> mode == SignIn && !closeRequested)
                && (old(mode) != Reset ==> mode == old(mode) && closeRequested)
      ensures formData == old(formData) && showPassword == old(showPassword)
    {
      var invalid := ValidationError(mode, formData);
      if invalid.Some? {
        error := invalid.value;
        return false;
      }
      loading := true;
      error := "";
      closeRequested := false;
      if outcome.Some? {
        error := EmailAuthMessage(outcome.value);
      } else if mode == Reset {
        mode := SignIn;
      } else {
        closeRequested := true;
      }
      loading := false;
    }

    /** `handleGoogleSignIn`: the error is cleared, then set from the failure's code, if any. */
    method HandleGoogleSignIn(outcome: Option<string>)
      modifies this
      ensures outcome.None? ==> error == ""
      ensures outcome.Some? ==> error == GoogleMessage(outcome.value)
      ensures !loading
      ensures mode == old(mode) && formData == old(formData) && showPassword == old(showPassword)
    {
      loading := true;
      error := "";
      if outcome.Some? {
        error := GoogleMessage(outcome.value);
      }
      loading := false;
    }
  }
}

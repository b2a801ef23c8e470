/**
 * The login dialog: login or register mode, a loading flag and an error message,
 * updated around a sign-in call whose outcome comes from the authentication provider.
 */
module LoginModal {

  /** The message shown for each authentication error code the dialog knows. */
  const KnownErrors: seq<(string, string)> := [
    ("auth/invalid-credential", "Credenciales incorrectas"),
    ("auth/email-already-in-use", "El email ya está en uso"),
    ("auth/weak-password", "La contraseña debe tener al menos 6 caracteres"),
    ("auth/user-not-found", "Usuario no encontrado"),
    ("auth/wrong-password", "Contraseña incorrecta"),
    ("auth/too-many-requests", "Demasiados intentos. Intente más tarde"),
    ("auth/popup-closed-by-user", "Se cerró la ventana de autenticación")
  ]

  const DefaultError := "Error al autenticar. Intente nuevamente"

  /** `getFirebaseError`. */
  function FirebaseError(code: string): (message: string)
    ensures message != ""
  {
    match code
    case "auth/invalid-credential" => "Credenciales incorrectas"
    case "auth/email-already-in-use" => "El email ya está en uso"
    case "auth/weak-password" => "La contraseña debe tener al menos 6 caracteres"
    case "auth/user-not-found" => "Usuario no encontrado"
    case "auth/wrong-password" => "Contraseña incorrecta"
    case "auth/too-many-requests" => "Demasiados intentos. Intente más tarde"
    case "auth/popup-closed-by-user" => "Se cerró la ventana de autenticación"
    case _ => DefaultError
  }

  /** Each known code gives its own message from the table, and every other code the default message. */
  lemma FirebaseErrorTable(code: string)
    ensures forall k :: 0 <= k < |KnownErrors| && KnownErrors[k].0 == code ==> FirebaseError(code) == KnownErrors[k].1
    ensures (forall k :: 0 <= k < |KnownErrors| ==> KnownErrors[k].0 != code) ==> FirebaseError(code) == DefaultError
  {
    if forall k :: 0 <= k < |KnownErrors| ==> KnownErrors[k].0 != code {
      assert KnownErrors[0].0 != code && KnownErrors[1].0 != code && KnownErrors[2].0 != code;
      assert KnownErrors[3].0 != code && KnownErrors[4].0 != code && KnownErrors[5].0 != code;
      assert KnownErrors[6].0 != code;
    }
  }

  /** Different known codes give different messages, and none gives the default message. */
  lemma FirebaseErrorDistinguishes(a: string, b: string)
    requires exists k :: 0 <= k < |KnownErrors| && KnownErrors[k].0 == a
    ensures FirebaseError(a) != DefaultError
    ensures FirebaseError(a) == FirebaseError(b) ==> a == b
  {
  }

  /** The calls the dialog makes to the authentication provider. */
  datatype AuthCall = SignInWithEmailAndPassword | CreateUserWithEmailAndPassword | SignInWithPopup

  /** What such a call ends with: success, or an error carrying its `code`. */
  datatype AuthOutcome = Succeeded | Failed(code: string)

  /** The dialog's `isLogin`, `loading` and `error`. */
  datatype AuthForm = AuthForm(isLogin: bool, loading: bool, error: string)

  const InitialForm := AuthForm(true, false, "")

  /** `toggleAuthMode`. */
  function ToggleAuthMode(s: AuthForm): (r: AuthForm)
    ensures r.isLogin == !s.isLogin && r.error == "" && r.loading == s.loading
  {
    s.(isLogin := !s.isLogin, error := "")
  }

  /** Toggling twice restores the mode, with the error cleared. */
  lemma ToggleTwice(s: AuthForm)
    ensures ToggleAuthMode(ToggleAuthMode(s)) == s.(error := "")
  {
  }

  /** `handleSubmit` up to its `await`: loading on, error cleared, and which call is made. */
  function BeginSubmit(s: AuthForm): (r: (AuthForm, AuthCall))
    ensures r.0 == s.(loading := true, error := "")
    ensures r.1 == SignInWithEmailAndPassword <==> s.isLogin
    ensures r.1 == CreateUserWithEmailAndPassword <==> !s.isLogin
  {
    (s.(loading := true, error := ""), if s.isLogin then SignInWithEmailAndPassword else CreateUserWithEmailAndPassword)
  }

  /** `handleGoogleSignIn` up to its `await`: loading on; the earlier error stays. */
  function BeginGoogleSignIn(s: AuthForm): (r: (AuthForm, AuthCall))
    ensures r.0.loading && r.0.isLogin == s.isLogin && r.0.error == s.error
    ensures r.1 == SignInWithPopup
  {
    (s.(loading := true), SignInWithPopup)
  }

  /** The `catch` and `finally` after the call, and whether the dialog asks to close (`onOpenChange(false)`). */
  function Settle(s: AuthForm, outcome: AuthOutcome): (r: (AuthForm, bool))
    ensures !r.0.loading && r.0.isLogin == s.isLogin
    ensures r.0.error == if outcome.Failed? then FirebaseError(outcome.code) else s.error
    ensures r.1 <==> outcome.Succeeded?
  {
    match outcome
    case Succeeded => (s.(loading := false), true)
    case Failed(code) => (s.(error := FirebaseError(code), loading := false), false)
  }

  /**
   * A whole submit: while the call runs the dialog is loading with no error; afterwards
   * it is not loading, the error is empty on success and the code's message on failure.
   */
  lemma SubmitProtocol(s: AuthForm, outcome: AuthOutcome)
    ensures var (during, _) := BeginSubmit(s);
      && during.loading && during.error == ""
      && var (after, close) := Settle(during, outcome);
      && !after.loading && after.isLogin == s.isLogin
      && (outcome.Succeeded? ==> after.error == "" && close)
      && (outcome.Failed? ==> after.error == FirebaseError(outcome.code) && !close)
  {
  }

  /** The dialog's state, changed in place by its handlers. */
  class Dialog {
    var isLogin: bool
    var loading: bool
    var error: string

    function State(): AuthForm
      reads this
    {
      AuthForm(isLogin, loading, error)
    }

    constructor ()
      ensures State() == InitialForm
    {
      isLogin, loading, error := true, false, "";
    }

    method ToggleMode()
      modifies this
      ensures State() == ToggleAuthMode(old(State()))
    {
      isLogin := !isLogin;
      error := "";
    }

    /** `handleSubmit` before the call; returns the call to make. */
    method StartSubmit() returns (call: AuthCall)
      modifies this
      ensures (State(), call) == BeginSubmit(old(State()))
    {
      loading := true;
      error := "";
      call := if isLogin then SignInWithEmailAndPassword else CreateUserWithEmailAndPassword;
    }

    /** `handleGoogleSignIn` before the call. */
    method StartGoogleSignIn() returns (call: AuthCall)
      modifies this
      ensures (State(), call) == BeginGoogleSignIn(old(State()))
    {
      loading := true;
      call := SignInWithPopup;
    }

    /** Either handler after its call: record the outcome; `close` is the request to close the dialog. */
    method Finish(outcome: AuthOutcome) returns (close: bool)
      modifies this
      ensures (State(), close) == Settle(old(State()), outcome)
    {
      close := outcome.Succeeded?;
      if outcome.Failed? {
        error := FirebaseError(outcome.code);
      }
      loading := false;
    }
  }
}

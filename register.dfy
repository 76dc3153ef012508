/**
 * The registration form: five inputs, an error line and a loading flag.
 * A submission clears the error, runs three checks in a fixed order, and
 * only then sends the registration; while it is in flight every input and
 * the submit button are disabled.
 */
module RegisterComponent {
  import opened Wrappers
  import Auth

  const MismatchMessage := "Password tidak cocok!"
  const ShortPasswordMessage := "Password minimal 6 karakter!"
  const ShortUsernameMessage := "Username minimal 3 karakter!"
  const FallbackMessage := "Registrasi gagal! Email atau username mungkin sudah terdaftar."
  const SuccessAlert := "✅ Registrasi berhasil! Silakan login."

  const MinPasswordLength := 6
  const MinUsernameLength := 3

  /** The three checks the form itself makes. */
  predicate Acceptable(password: string, confirm: string, username: string) {
    password == confirm && |password| >= MinPasswordLength && |username| >= MinUsernameLength
  }

  /** The message of the first check that fails, the password match first, then its length, then the username's. */
  function FirstError(password: string, confirm: string, username: string): (r: Option<string>)
    ensures r.None? <==> Acceptable(password, confirm, username)
    ensures password != confirm ==> r == Some(MismatchMessage)
    ensures r == Some(ShortPasswordMessage) <==> password == confirm && |password| < MinPasswordLength
    ensures r == Some(ShortUsernameMessage) <==>
      password == confirm && |password| >= MinPasswordLength && |username| < MinUsernameLength
  {
    if password != confirm then Some(MismatchMessage)
    else if |password| < MinPasswordLength then Some(ShortPasswordMessage)
    else if |username| < MinUsernameLength then Some(ShortUsernameMessage)
    else None
  }

  /** How `authService.register` settles: it resolves, or it rejects with an error whose message may be empty. */
  datatype Outcome = Registered | Failed(message: string)

  /** `err.message || fallback`. */
  function FailureText(message: string): (m: string)
    ensures m != ""
    ensures message != "" ==> m == message
    ensures message == "" ==> m == FallbackMessage
  {
    if message != "" then message else FallbackMessage
  }

  class Register {
    var fullName: string
    var username: string
    var email: string
    var password: string
    var confirmPassword: string
    var error: string
    var loading: bool

    /** The bodies handed to `authService.register`, and the alerts and navigations made. */
    ghost var sent: seq<Auth.RegisterData>
    ghost var alerts: seq<string>
    ghost var navigations: seq<string>

    function Data(): Auth.RegisterData
      reads this
    {
      Auth.RegisterData(fullName, username, email, password)
    }

    /** While a registration is in flight the inputs are frozen, so the last body sent is still the form's, and it passed the checks. */
    ghost predicate Valid()
      reads this
    {
      loading ==> |sent| > 0 && sent[|sent| - 1] == Data() && Acceptable(password, confirmPassword, username) && error == ""
    }

    constructor ()
      ensures Valid()
      ensures fullName == "" && username == "" && email == "" && password == "" && confirmPassword == ""
      ensures error == "" && !loading
      ensures sent == [] && alerts == [] && navigations == []
    {
      fullName, username, email, password, confirmPassword := "", "", "", "", "";
      error, loading := "", false;
      sent, alerts, navigations := [], [], [];
    }

    /** Typing into the inputs, which are disabled while loading. */
    method SetInputs(name: string, user: string, mail: string, pass: string, confirm: string)
      requires Valid() && !loading
      modifies this`fullName, this`username, this`email, this`password, this`confirmPassword
      ensures Valid()
      ensures fullName == name && username == user && email == mail && password == pass && confirmPassword == confirm
    {
      fullName, username, email, password, confirmPassword := name, user, mail, pass, confirm;
    }

    /** The synchronous part of `handleRegister`, up to the awaited call: clear the error, check, then send and start loading. */
    method Submit() returns (request: Option<Auth.RegisterData>)
      requires Valid() && !loading
      modifies this`error, this`loading, this`sent
      ensures Valid()
      ensures request.Some? <==> Acceptable(password, confirmPassword, username)
      ensures request.Some? ==> request.value == Data() && sent == old(sent) + [Data()] && loading && error == ""
      ensures request.None? ==>
        sent == old(sent) && !loading && error == FirstError(password, confirmPassword, username).value
    {
      error := "";
      var problem := FirstError(password, confirmPassword, username);
      if problem.Some? {
        error := problem.value;
        return None;
      }
      loading := true;
      sent := sent + [Data()];
      request := Some(Data());
    }

    /** The rest of `handleRegister`, once the call settles: alert and go to the login page, or show the error; loading always ends. */
    method Complete(outcome: Outcome)
      requires Valid() && loading
      modifies this`error, this`loading, this`alerts, this`navigations
      ensures Valid() && !loading
      ensures outcome.Registered? ==>
        error == "" && alerts == old(alerts) + [SuccessAlert] && navigations == old(navigations) + ["/login"]
      ensures outcome.Failed? ==>
        error == FailureText(outcome.message) && alerts == old(alerts) && navigations == old(navigations)
    {
      match outcome {
        case Registered =>
          alerts := alerts + [SuccessAlert];
          navigations := navigations + ["/login"];
        case Failed(message) =>
          error := FailureText(message);
      }
      loading := false;
    }

    /** `handleRegister` from submission to settlement, the call settling with `outcome`. */
    method HandleRegister(outcome: Outcome)
      requires Valid() && !loading
      modifies this`error, this`loading, this`sent, this`alerts, this`navigations
      ensures Valid() && !loading
      ensures !Acceptable(password, confirmPassword, username) ==>
        && error == FirstError(password, confirmPassword, username).value
        && sent == old(sent) && alerts == old(alerts) && navigations == old(navigations)
      ensures Acceptable(password, confirmPassword, username) ==> sent == old(sent) + [Data()]
      ensures Acceptable(password, confirmPassword, username) && outcome.Registered? ==>
        error == "" && alerts == old(alerts) + [SuccessAlert] && navigations == old(navigations) + ["/login"]
      ensures Acceptable(password, confirmPassword, username) && outcome.Failed? ==>
        error == FailureText(outcome.message) && alerts == old(alerts) && navigations == old(navigations)
    {
      var request := Submit();
      if request.None? {
        return;
      }
      Complete(outcome);
    }
  }
}

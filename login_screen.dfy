/**
 * The sign-in screen: the form's rules, the fixed-credential check behind the submit,
 * and the password-visibility toggle. The stored authentication flag and the
 * navigations are fields of the screen model.
 */
module LoginScreen {
  import opened Options
  import opened FormRules
  import opened JsText
  import opened ProtectedRoute

  const FixedEmail := "test@test.com"
  const FixedPassword := "Test@12345"
  const CredentialsError := "Invalid credentials. Use test@test.com / Test@12345"

  /** The email rule's and the password rule's messages, by field. */
  function LoginErrors(email: string, password: string, isEmail: string -> bool): (e: map<string, string>)
    ensures "email" in e <==> email == "" || !isEmail(email)
    ensures "password" in e <==> Utf16Length(password) < 8
    ensures e.Keys <= {"email", "password"}
    ensures password == "" ==> e["password"] == "Password is required"
    ensures password != "" && Utf16Length(password) < 8 ==> e["password"] == "Password must be at least 8 characters"
    ensures email == "" ==> e["email"] == "Email is required"
    ensures email != "" && !isEmail(email) ==> e["email"] == "Invalid email address"
  {
    var withEmail := Put(map[], "email", EmailRule(email, isEmail, "Email is required", "Invalid email address"));
    Put(withEmail, "password", MinLength(password, 8, "Password is required", "Password must be at least 8 characters"))
  }

  /** The fixed credentials pass both rules, so the form lets them through to the check. */
  lemma FixedCredentialsPassRules(isEmail: string -> bool)
    requires isEmail(FixedEmail)
    ensures LoginErrors(FixedEmail, FixedPassword, isEmail) == map[]
  {
    var e := LoginErrors(FixedEmail, FixedPassword, isEmail);
    Utf16LengthBasic(FixedPassword);
    assert e.Keys == {};
  }

  class LoginScreenModel {
    var showPassword: bool
    var loginError: string
    /** `localStorage`'s "isAuthenticated" entry. */
    var authFlag: Option<string>
    /** The paths passed to `navigate`, in order. */
    var navigations: seq<string>

    constructor (storedFlag: Option<string>)
      ensures !showPassword && loginError == "" && authFlag == storedFlag && navigations == []
    {
      showPassword := false;
      loginError := "";
      authFlag := storedFlag;
      navigations := [];
    }

    /** `handleLogin`: only the fixed pair signs in and goes to the dashboard. */
    method HandleLogin(email: string, password: string)
      modifies this
      ensures email == FixedEmail && password == FixedPassword ==>
        authFlag == Some("true") && Authenticated(authFlag) && navigations == old(navigations) + ["/dashboard"]
        && loginError == old(loginError)
      ensures !(email == FixedEmail && password == FixedPassword) ==>
        loginError == CredentialsError && authFlag == old(authFlag) && navigations == old(navigations)
      ensures showPassword == old(showPassword)
    {
      if email == FixedEmail && password == FixedPassword {
        authFlag := Some("true");
        navigations := navigations + ["/dashboard"];
      } else {
        loginError := CredentialsError;
      }
    }

    /** Submitting the form: the check runs only when no rule fails. */
    method Submit(email: string, password: string, isEmail: string -> bool)
      modifies this
      ensures LoginErrors(email, password, isEmail) != map[] ==>
        loginError == old(loginError) && authFlag == old(authFlag) && navigations == old(navigations)
      ensures LoginErrors(email, password, isEmail) == map[] && email == FixedEmail && password == FixedPassword ==>
        Authenticated(authFlag) && navigations == old(navigations) + ["/dashboard"]
      ensures LoginErrors(email, password, isEmail) == map[] && !(email == FixedEmail && password == FixedPassword) ==>
        loginError == CredentialsError && authFlag == old(authFlag) && navigations == old(navigations)
      ensures showPassword == old(showPassword)
    {
      var errors := LoginErrors(email, password, isEmail);
      if errors != map[] {
        return;
      }
      HandleLogin(email, password);
    }

    /** The eye button: shows or hides the password. */
    method TogglePassword()
      modifies this
      ensures showPassword == !old(showPassword)
      ensures loginError == old(loginError) && authFlag == old(authFlag) && navigations == old(navigations)
    {
      showPassword := !showPassword;
    }
  }
}

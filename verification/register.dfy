/** The registration page (src/pages/Register.tsx): the redirect of a
    visitor who is already signed in, and `handleRegister`, whose two guards
    run before the service's `register` is called. */
module Register {
  import opened Common
  import opened UserService

  /** The page's state: the inputs, the loading flag with every value it has
      been set to, the last toast title and where the page navigated. */
  class RegisterPage {
    var name: string
    var email: string
    var password: string
    var confirmPassword: string
    var phone: string
    var acceptTerms: bool
    var isLoading: bool
    var loadingHistory: seq<bool>
    var toast: Option<string>
    var navigatedTo: Option<string>

    /** Empty inputs, terms not accepted, not loading. */
    constructor ()
      ensures name == "" && email == "" && password == "" && confirmPassword == "" && phone == ""
      ensures !acceptTerms && !isLoading && loadingHistory == [] && toast.None? && navigatedTo.None?
    {
      name, email, password, confirmPassword, phone := "", "", "", "", "";
      acceptTerms := false;
      isLoading := false;
      loadingHistory := [];
      toast := None;
      navigatedTo := None;
    }

    /** The inputs now hold these values. */
    method Fill(n: string, e: string, pw: string, confirm: string, ph: string, terms: bool)
      modifies this
      ensures name == n && email == e && password == pw && confirmPassword == confirm && phone == ph
      ensures acceptTerms == terms
      ensures isLoading == old(isLoading) && loadingHistory == old(loadingHistory)
      ensures toast == old(toast) && navigatedTo == old(navigatedTo)
    {
      name, email, password, confirmPassword, phone := n, e, pw, confirm, ph;
      acceptTerms := terms;
    }

    /** The mount effect: a visitor with a token is sent to the dashboard. */
    method RedirectIfSignedIn(session: UserSession)
      modifies this, session
      ensures HasToken(old(session.token)) ==> navigatedTo == Some("/dashboard")
      ensures !HasToken(old(session.token)) ==> navigatedTo == old(navigatedTo)
      ensures session.token == old(session.token) && session.currentUser == old(session.currentUser)
      ensures isLoading == old(isLoading) && loadingHistory == old(loadingHistory) && toast == old(toast)
    {
      var authed := session.CheckAuth();
      if authed {
        navigatedTo := Some("/dashboard");
      }
    }

    /** `handleRegister`. Differing passwords stop it first, unaccepted terms
        second, and neither touches the loading flag or the session. Past both
        guards the flag goes up, the service registers the name, e-mail,
        password and phone (answering a user even when the request fails),
        the page welcomes the user and goes to the dashboard, and the flag
        comes down. */
    method HandleRegister(session: UserSession, response: Remote<AuthResponse>) returns (registered: Option<User>)
      modifies this, session
      ensures password != confirmPassword ==>
                registered.None? && toast == Some("Passwords do not match") &&
                loadingHistory == old(loadingHistory) && isLoading == old(isLoading) &&
                navigatedTo == old(navigatedTo) && session.token == old(session.token)
      ensures password == confirmPassword && !acceptTerms ==>
                registered.None? && toast == Some("Terms not accepted") &&
                loadingHistory == old(loadingHistory) && isLoading == old(isLoading) &&
                navigatedTo == old(navigatedTo) && session.token == old(session.token)
      ensures password == confirmPassword && acceptTerms ==>
                var data := RegisterData(name, email, password, Some(phone));
                registered == Some(RegisterResult(data, response).user) &&
                session.token == Some(RegisterResult(data, response).token) && session.isAuthenticated &&
                toast == Some("Registration successful!") && navigatedTo == Some("/dashboard") &&
                loadingHistory == old(loadingHistory) + [true, false] && !isLoading
      ensures name == old(name) && email == old(email) && password == old(password)
      ensures confirmPassword == old(confirmPassword) && phone == old(phone) && acceptTerms == old(acceptTerms)
    {
      if password != confirmPassword {
        toast := Some("Passwords do not match");
        return None;
      }
      if !acceptTerms {
        toast := Some("Terms not accepted");
        return None;
      }
      isLoading := true;
      loadingHistory := loadingHistory + [true];
      var user := session.Register(RegisterData(name, email, password, Some(phone)), response);
      toast := Some("Registration successful!");
      navigatedTo := Some("/dashboard");
      registered := Some(user);
      isLoading := false;
      loadingHistory := loadingHistory + [false];
    }
  }

  /** When both guards fail, the password mismatch is the one reported. */
  method MismatchReportedFirst(session: UserSession) returns (toast: Option<string>)
    modifies session
    ensures toast == Some("Passwords do not match")
  {
    var page := new RegisterPage();
    page.Fill("Amina", "amina@example.com", "secret1", "secret2", "", false);
    var _ := page.HandleRegister(session, Failure);
    toast := page.toast;
  }
}

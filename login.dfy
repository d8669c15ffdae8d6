/** The login page: the role-based redirect and the submit handler. */
module Login {
  import opened Basics

  /**
   * What the auth context's `login` resolves to. `hasDriverProfile` is
   * `None` when the response leaves it undefined.
   */
  datatype LoginResult = LoginResult(success: bool, role: string, hasDriverProfile: Option<bool>, error: string)

  /**
   * redirectBasedOnRole: an undefined profile flag takes the default `true`,
   * so only an explicit `false` sends a driver to registration.
   */
  function LoginRedirect(role: string, hasProfile: Option<bool>): (path: string)
    ensures role == "ADMIN" <==> path == "/admin"
    ensures path == "/driver/register" <==> role == "DRIVER" && hasProfile == Some(false)
    ensures path == "/driver/dashboard" <==> role == "DRIVER" && hasProfile != Some(false)
    ensures path == "/dashboard" <==> role != "ADMIN" && role != "DRIVER"
  {
    if role == "ADMIN" then "/admin"
    else if role == "DRIVER" then
      (if hasProfile.None? || hasProfile.value then "/driver/dashboard" else "/driver/register")
    else "/dashboard"
  }

  class LoginPage {
    var formData: map<string, string>
    var loading: bool
    var error: string
    /** The requests handed to `login`, and the navigation target, if any. */
    var loginCalls: seq<map<string, string>>
    var navigatedTo: Option<string>

    constructor ()
      ensures formData == map["email" := "", "password" := ""]
      ensures !loading && error == "" && loginCalls == [] && navigatedTo == None
    {
      formData := map["email" := "", "password" := ""];
      loading := false;
      error := "";
      loginCalls := [];
      navigatedTo := None;
    }

    /** The mount effect: a signed-in user is sent on as if they had a driver profile. */
    method RedirectIfAuthenticated(isAuthenticated: bool, userRole: Option<string>)
      modifies this`navigatedTo
      ensures isAuthenticated && userRole.Some? ==>
        navigatedTo == Some(LoginRedirect(userRole.value, Some(true)))
      ensures !(isAuthenticated && userRole.Some?) ==> navigatedTo == old(navigatedTo)
    {
      if isAuthenticated && userRole.Some? {
        navigatedTo := Some(LoginRedirect(userRole.value, Some(true)));
      }
    }

    method HandleChange(name: string, value: string)
      modifies this`formData, this`error
      ensures formData == old(formData)[name := value]
      ensures error == ""
    {
      formData := formData[name := value];
      error := "";
    }

    /** handleSubmit, with the awaited `login` call's outcome passed in as `result`. */
    method HandleSubmit(result: LoginResult)
      modifies this`loading, this`error, this`loginCalls, this`navigatedTo
      ensures loginCalls == old(loginCalls) + [formData]
      ensures !loading
      ensures result.success ==>
        error == "" && navigatedTo == Some(LoginRedirect(result.role, result.hasDriverProfile))
      ensures !result.success ==> error == result.error && navigatedTo == old(navigatedTo)
    {
      loading := true;
      error := "";
      loginCalls := loginCalls + [formData];
      if result.success {
        navigatedTo := Some(LoginRedirect(result.role, result.hasDriverProfile));
      } else {
        error := result.error;
      }
      loading := false;
    }
  }
}

/**
 * The sign-up page: the default role from the query string, the password
 * strength meter, the submit checks and the redirect by role.
 */
module Register {
  import opened Basics

  /** What the auth provider's register call resolves to. */
  datatype RegisterResult = RegisterResult(success: bool, role: string, error: string)

  function DefaultRole(roleParam: Option<string>): (role: string)
    ensures role == "DRIVER" <==> roleParam == Some("driver")
    ensures role != "DRIVER" ==> role == "CUSTOMER"
  {
    if roleParam == Some("driver") then "DRIVER" else "CUSTOMER"
  }

  predicate HasUpper(p: string) {
    exists i :: 0 <= i < |p| && 'A' <= p[i] <= 'Z'
  }

  predicate HasDigit(p: string) {
    exists i :: 0 <= i < |p| && '0' <= p[i] <= '9'
  }

  predicate IsAlphanumeric(c: char) {
    'A' <= c <= 'Z' || 'a' <= c <= 'z' || '0' <= c <= '9'
  }

  predicate HasSymbol(p: string) {
    exists i :: 0 <= i < |p| && !IsAlphanumeric(p[i])
  }

  function Bit(b: bool): nat {
    if b then 1 else 0
  }

  /** The meter value: how many of the five criteria the password meets; lengths are UTF-16 lengths. */
  function Strength(p: string): (n: nat)
    ensures n <= 5
    ensures n == 5 <==> JsLength(p) >= 8 && HasUpper(p) && HasDigit(p) && HasSymbol(p)
    ensures n == 0 <==> JsLength(p) < 6 && !HasUpper(p) && !HasDigit(p) && !HasSymbol(p)
  {
    Bit(JsLength(p) >= 6) + Bit(JsLength(p) >= 8) + Bit(HasUpper(p)) + Bit(HasDigit(p)) + Bit(HasSymbol(p))
  }

  /** The password-strength effect: one increment per criterion met. */
  method ComputeStrength(password: string) returns (strength: nat)
    ensures strength == Strength(password)
    ensures strength <= 5
  {
    strength := 0;
    var length := JsLength(password);
    if length >= 6 { strength := strength + 1; }
    if length >= 8 { strength := strength + 1; }
    if HasUpper(password) { strength := strength + 1; }
    if HasDigit(password) { strength := strength + 1; }
    if HasSymbol(password) { strength := strength + 1; }
  }

  /** Typing more characters never lowers the strength: every criterion survives extension. */
  lemma StrengthGrowsWithExtension(p: string, q: string)
    ensures Strength(p) <= Strength(p + q)
  {
    JsLengthAppend(p, q);
    if HasUpper(p) {
      var i :| 0 <= i < |p| && 'A' <= p[i] <= 'Z';
      assert (p + q)[i] == p[i];
    }
    if HasDigit(p) {
      var i :| 0 <= i < |p| && '0' <= p[i] <= '9';
      assert (p + q)[i] == p[i];
    }
    if HasSymbol(p) {
      var i :| 0 <= i < |p| && !IsAlphanumeric(p[i]);
      assert (p + q)[i] == p[i];
    }
  }

  /** Three characters outside the Basic Multilingual Plane make a password of length 6. */
  lemma AstralPasswordHasLengthSix()
    ensures JsLength("\U{1F600}\U{1F600}\U{1F600}") == 6
    ensures Strength("\U{1F600}\U{1F600}\U{1F600}") == 2
  {
    var p := "\U{1F600}\U{1F600}\U{1F600}";
    assert p[1..][1..][1..] == [];
    assert !IsAlphanumeric(p[0]);
  }

  function StrengthText(strength: int): (text: string)
    ensures text in {"Weak", "Fair", "Good", "Strong", "Very Strong"}
    ensures text == "Weak" <==> strength <= 1
    ensures text == "Very Strong" <==> strength >= 5
  {
    if strength <= 1 then "Weak"
    else if strength <= 2 then "Fair"
    else if strength <= 3 then "Good"
    else if strength <= 4 then "Strong"
    else "Very Strong"
  }

  function StrengthColor(strength: int): (color: string)
    ensures color in {"bg-red-500", "bg-orange-500", "bg-yellow-500", "bg-green-500", "bg-green-600"}
    ensures color == "bg-red-500" <==> strength <= 1
    ensures color == "bg-green-600" <==> strength >= 5
  {
    if strength <= 1 then "bg-red-500"
    else if strength <= 2 then "bg-orange-500"
    else if strength <= 3 then "bg-yellow-500"
    else if strength <= 4 then "bg-green-500"
    else "bg-green-600"
  }

  /** The text and the colour of the meter change at the same thresholds. */
  lemma TextAndColorShareBuckets(a: int, b: int)
    ensures StrengthText(a) == StrengthText(b) <==> StrengthColor(a) == StrengthColor(b)
  {
  }

  /** Where the page navigates after sign-up, or when already signed in. */
  function RedirectFor(role: string): (path: string)
    ensures role == "ADMIN" <==> path == "/admin"
    ensures role == "DRIVER" <==> path == "/driver/register"
    ensures role != "ADMIN" && role != "DRIVER" <==> path == "/dashboard"
  {
    if role == "ADMIN" then "/admin"
    else if role == "DRIVER" then "/driver/register"
    else "/dashboard"
  }

  class RegisterPage {
    var formData: map<string, string>
    var loading: bool
    var error: string
    var passwordStrength: nat
    /** The payloads passed to the register call, and the navigation target, if any. */
    var registerCalls: seq<map<string, string>>
    var navigatedTo: Option<string>

    ghost predicate Valid()
      reads this
    {
      "password" in formData && "confirmPassword" in formData
    }

    constructor (roleParam: Option<string>)
      ensures Valid()
      ensures formData == map["firstName" := "", "lastName" := "", "email" := "", "phone" := "",
                              "password" := "", "confirmPassword" := "", "role" := DefaultRole(roleParam)]
      ensures !loading && error == "" && passwordStrength == 0
      ensures registerCalls == [] && navigatedTo == None
    {
      formData := map["firstName" := "", "lastName" := "", "email" := "", "phone" := "",
                      "password" := "", "confirmPassword" := "", "role" := DefaultRole(roleParam)];
      loading, error, passwordStrength := false, "", 0;
      registerCalls, navigatedTo := [], None;
    }

    /** The already-signed-in effect. */
    method RedirectIfAuthenticated(isAuthenticated: bool, userRole: Option<string>)
      modifies this`navigatedTo
      ensures isAuthenticated && userRole.Some? ==> navigatedTo == Some(RedirectFor(userRole.value))
      ensures !(isAuthenticated && userRole.Some?) ==> navigatedTo == old(navigatedTo)
    {
      if isAuthenticated && userRole.Some? {
        navigatedTo := Some(RedirectFor(userRole.value));
      }
    }

    /** The effect that recomputes the meter after the password changed. */
    method UpdateStrength()
      requires Valid()
      modifies this`passwordStrength
      ensures passwordStrength == Strength(formData["password"])
    {
      passwordStrength := ComputeStrength(formData["password"]);
    }

    method HandleChange(name: string, value: string)
      requires Valid()
      modifies this`formData, this`error
      ensures Valid()
      ensures formData == old(formData)[name := value] && error == ""
    {
      formData := formData[name := value];
      error := "";
    }

    /** handleSubmit; `result` is what the register call would resolve to. */
    method HandleSubmit(result: RegisterResult)
      requires Valid()
      modifies this`loading, this`error, this`registerCalls, this`navigatedTo
      ensures !loading
      ensures formData["password"] != formData["confirmPassword"] ==>
        error == "Passwords do not match" && registerCalls == old(registerCalls) && navigatedTo == old(navigatedTo)
      ensures formData["password"] == formData["confirmPassword"] && JsLength(formData["password"]) < 6 ==>
        error == "Password must be at least 6 characters" && registerCalls == old(registerCalls)
        && navigatedTo == old(navigatedTo)
      ensures formData["password"] == formData["confirmPassword"] && JsLength(formData["password"]) >= 6 ==>
        && registerCalls == old(registerCalls) + [formData - {"confirmPassword"}]
        && (result.success ==> navigatedTo == Some(RedirectFor(result.role)) && error == "")
        && (!result.success ==> navigatedTo == old(navigatedTo) && error == result.error)
    {
      loading := true;
      error := "";
      if formData["password"] != formData["confirmPassword"] {
        error := "Passwords do not match";
        loading := false;
        return;
      }
      if JsLength(formData["password"]) < 6 {
        error := "Password must be at least 6 characters";
        loading := false;
        return;
      }
      var userData := formData - {"confirmPassword"};
      registerCalls := registerCalls + [userData];
      if result.success {
        navigatedTo := Some(RedirectFor(result.role));
      } else {
        error := result.error;
      }
      loading := false;
    }
  }
}

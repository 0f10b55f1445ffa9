/** The sign-in page (pages/auth/Login.tsx): its submit handler and the submit button's gate. */
module Login {
  import opened Wrappers
  import RouteGuard

  const WrongCredentialsMessage := "Tài khoản hoặc mật khẩu không đúng"
  const GenericFailureMessage := "Failed to sign in. Please try again."

  /** A failed login: the error's own `status` and its `response.status`, either of which may be missing. */
  datatype LoginError = LoginError(status: Option<int>, responseStatus: Option<int>)

  /** The message shown for a failed sign-in. */
  function ErrorMessage(e: LoginError): (m: string)
    ensures m == WrongCredentialsMessage <==> e.status == Some(400) || e.responseStatus == Some(400)
    ensures m == WrongCredentialsMessage || m == GenericFailureMessage
  {
    if e.status == Some(400) || e.responseStatus == Some(400) then WrongCredentialsMessage else GenericFailureMessage
  }

  /** Where a signed-in account goes: its role's dashboard, or "/" for any other role. */
  function LoginRoute(role: Option<string>): (r: string)
    ensures role.Some? && role.value in RouteGuard.Roles ==> r == RouteGuard.RoleHome(role).value
    ensures !(role.Some? && role.value in RouteGuard.Roles) ==> r == "/"
  {
    if role == Some("ADMIN") then "/admin"
    else if role == Some("MANAGER") then "/manager"
    else if role == Some("DOCTOR") then "/doctor"
    else if role == Some("RECEPTIONIST") then "/receptionist"
    else "/"
  }

  /** Login sends a known role where the route guard would, so the guard requiring that role admits it. */
  lemma LoginRouteAgreesWithGuard(account: RouteGuard.AccountQuery)
    requires !account.isLoading && account.hasData
    requires account.role.Some? && account.role.value in RouteGuard.Roles
    ensures LoginRoute(account.role) == RouteGuard.RoleHome(account.role).value
    ensures RouteGuard.Guard(account, account.role).view == RouteGuard.RenderChildren
  {
  }

  class LoginPage {
    var accountName: string
    var password: string
    var isLoading: bool
    var error: string
    var accountFetches: nat
    var navigatedTo: Option<string>

    constructor ()
      ensures accountName == "" && password == "" && !isLoading && error == ""
      ensures accountFetches == 0 && navigatedTo == None
    {
      accountName, password, isLoading, error := "", "", false, "";
      accountFetches, navigatedTo := 0, None;
    }

    /** `!accountName || !password || isLoading`: the submit button's `disabled`. */
    predicate SubmitDisabled()
      reads this
    {
      accountName == "" || password == "" || isLoading
    }

    /** `handleSubmit` up to the login call: loading starts and the previous error is cleared. */
    method StartSubmit()
      modifies this
      ensures isLoading && error == "" && SubmitDisabled()
      ensures accountName == old(accountName) && password == old(password)
      ensures accountFetches == old(accountFetches) && navigatedTo == old(navigatedTo)
    {
      isLoading := true;
      error := "";
    }

    /**
     * `handleSubmit` once the login call settles: a login error goes straight to the error
     * message without fetching the account; otherwise the account is fetched and the page
     * navigates by its role. Loading ends on both paths.
     */
    method CompleteSubmit(loginError: Option<LoginError>, role: Option<string>)
      modifies this
      ensures !isLoading
      ensures loginError.Some? ==>
        error == ErrorMessage(loginError.value) && accountFetches == old(accountFetches) && navigatedTo == old(navigatedTo)
      ensures loginError.None? ==>
        error == old(error) && accountFetches == old(accountFetches) + 1 && navigatedTo == Some(LoginRoute(role))
      ensures accountName == old(accountName) && password == old(password)
    {
      if loginError.Some? {
        error := ErrorMessage(loginError.value);
        isLoading := false;
        return;
      }
      accountFetches := accountFetches + 1;
      navigatedTo := Some(LoginRoute(role));
      isLoading := false;
    }

    /** A whole submission: a failed one shows exactly one of the two messages, a successful one none. */
    method Submit(loginError: Option<LoginError>, role: Option<string>)
      modifies this
      ensures !isLoading
      ensures loginError.Some? ==>
        && error == ErrorMessage(loginError.value) && error != ""
        && accountFetches == old(accountFetches) && navigatedTo == old(navigatedTo)
      ensures loginError.None? ==>
        error == "" && accountFetches == old(accountFetches) + 1 && navigatedTo == Some(LoginRoute(role))
      ensures accountName == old(accountName) && password == old(password)
    {
      StartSubmit();
      CompleteSubmit(loginError, role);
    }
  }
}

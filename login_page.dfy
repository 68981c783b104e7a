/** The login page (src/components/auth/Login.tsx): a two-field form whose
    submit signs in through the auth service and admits only admins. */
module LoginPage {
  import opened Http
  import opened Web
  import opened Messages
  import opened SessionCodec
  import AuthService

  datatype LoginField = Email | Password

  class Login {
    var email: string
    var password: string
    var loading: bool
    var error: Option<string>
    /** The paths the page navigated to, oldest first. */
    var navigations: seq<string>

    constructor ()
      ensures email == "" && password == "" && !loading && error == None && navigations == []
    {
      email := "";
      password := "";
      loading := false;
      error := None;
      navigations := [];
    }

    /** The mount effect: an already authenticated visitor is sent to the
        dashboard. */
    method Mount(b: Browser)
      modifies this
      ensures AuthService.IsAuthenticated(b.storage) ==> navigations == old(navigations) + [DashboardPath]
      ensures !AuthService.IsAuthenticated(b.storage) ==> navigations == old(navigations)
      ensures email == old(email) && password == old(password)
      ensures loading == old(loading) && error == old(error)
    {
      if AuthService.IsAuthenticated(b.storage) {
        navigations := navigations + ["/dashboard"];
      }
    }

    /** `handleChange`: only the named field takes the typed value. */
    method HandleChange(field: LoginField, value: string)
      modifies this
      ensures field == Email ==> email == value && password == old(password)
      ensures field == Password ==> password == value && email == old(email)
      ensures loading == old(loading) && error == old(error) && navigations == old(navigations)
    {
      match field
      case Email => email := value;
      case Password => password := value;
    }

    /** `handleSubmit`: clears the error and signs in with the form's
        credentials; a non-admin user is turned away with the admin-only
        message (the session the service stored stays), an admin goes to
        the dashboard, and a failure shows its message. Loading is off at
        the end of every path. */
    method HandleSubmit(b: Browser, reply: Reply<User>) returns (sent: Request)
      modifies this, b
      ensures sent == AuthService.LoginRequest(old(email), old(password))
      ensures b.storage == AuthService.StoredAfterLogin(old(b.storage), reply)
      ensures reply.Ok? && reply.value.role == "Admin" ==>
                navigations == old(navigations) + [DashboardPath] && error == None
      ensures reply.Ok? && reply.value.role != "Admin" ==>
                navigations == old(navigations) && error == Some(AdminOnly)
      ensures reply.Fail? ==>
                navigations == old(navigations)
                && error == Some(AuthService.LoginFailureMessage(reply.status))
      ensures !loading && email == old(email) && password == old(password)
      ensures b.location == old(b.location) && b.defaultHeaders == old(b.defaultHeaders)
    {
      loading := true;
      error := None;
      var r;
      sent, r := AuthService.Login(b, email, password, reply);
      if r.Success? {
        if r.value.role != "Admin" {
          error := Some(AdminOnly);
          loading := false;
          return;
        }
        navigations := navigations + ["/dashboard"];
      } else {
        AuthService.LoginMessageNonEmpty(reply.status);
        error := Some(MessageOr(r.error, LoginPageFallback));
      }
      loading := false;
    }
  }

  /** A non-admin whose reply carried a token is turned away with the
      admin-only message and no navigation, yet the page does not sign them
      out: the session the service stored stays, so the page's own mount
      check sends them on to the dashboard when it runs again. */
  method RejectedUserStaysAuthenticated(page: Login, b: Browser, u: User) returns (sent: Request)
    requires u.token != "" && u.role != "Admin"
    modifies page, b
    ensures page.error == Some(AdminOnly)
    ensures AuthService.IsAuthenticated(b.storage)
    ensures AuthService.CurrentUser(b.storage) == Success(Some(u))
    ensures page.navigations == old(page.navigations) + [DashboardPath]
  {
    ghost var before := b.storage;
    sent := page.HandleSubmit(b, Ok(u));
    assert page.navigations == old(page.navigations);
    AuthService.LoginThenCurrentUser(before, u);
    page.Mount(b);
  }
}

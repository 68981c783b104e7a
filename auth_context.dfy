/** The auth context (src/contexts/AuthContext.tsx): the signed-in user, a
    loading flag and the last login error, kept as the state cells of an
    `AuthProvider`, plus the flags derived from the user. */
module AuthContext {
  import opened Http
  import opened Web
  import opened Messages
  import opened Enums
  import opened SessionCodec
  import AuthService
  import ApiClient

  /** The flags the context exposes next to the user. */
  datatype Flags = Flags(isAuthenticated: bool, isAdmin: bool, isTeacher: bool)

  /** `!!user`, `user?.role === 'Admin'` and `user?.role === 'Teacher'`. */
  function FlagsOf(user: Option<User>): (f: Flags)
    ensures f.isAuthenticated <==> user.Some?
    ensures f.isAdmin <==> user.Some? && ParseRole(user.value.role) == Some(Admin)
    ensures f.isTeacher <==> user.Some? && ParseRole(user.value.role) == Some(Teacher)
    ensures !(f.isAdmin && f.isTeacher)
  {
    Flags(user.Some?, user.Some? && user.value.role == "Admin", user.Some? && user.value.role == "Teacher")
  }

  class AuthProvider {
    var user: Option<User>
    var isLoading: bool
    var error: Option<string>

    /** The provider as first rendered: nobody signed in, still loading. */
    constructor ()
      ensures user == None && isLoading && error == None
    {
      user := None;
      isLoading := true;
      error := None;
    }

    function Value(): (f: Flags)
      reads this
      ensures f == FlagsOf(user)
    {
      FlagsOf(user)
    }

    /** The mount effect: adopts the stored user, keeps the current one when
        the stored text does not parse, and stops loading either way. */
    method Hydrate(b: Browser)
      modifies this
      ensures AuthService.CurrentUser(b.storage).Success? ==>
                user == AuthService.CurrentUser(b.storage).value
      ensures AuthService.CurrentUser(b.storage).Failure? ==> user == old(user)
      ensures !isLoading && error == old(error)
    {
      var stored := AuthService.CurrentUser(b.storage);
      if stored.Success? {
        user := stored.value;
      }
      isLoading := false;
    }

    /** `login`: clears the error, signs in, and adopts the returned user;
        on failure it keeps the user, records the message (or the fallback
        when it is empty) and rethrows. Loading stops on both paths. */
    method Login(b: Browser, email: string, password: string, reply: Reply<User>)
      returns (sent: Request, r: Result<()>)
      modifies this, b
      ensures sent == AuthService.LoginRequest(email, password)
      ensures r.Success? <==> reply.Ok?
      ensures reply.Ok? ==> user == Some(reply.value) && error == None
      ensures reply.Fail? ==> user == old(user)
      ensures reply.Fail? ==>
                r.error == Error(AuthService.LoginFailureMessage(reply.status))
                && error == Some(MessageOr(r.error, ContextLoginFallback))
      ensures !isLoading
      ensures b.storage == AuthService.StoredAfterLogin(old(b.storage), reply)
      ensures b.location == old(b.location) && b.defaultHeaders == old(b.defaultHeaders)
    {
      error := None;
      isLoading := true;
      var result;
      sent, result := AuthService.Login(b, email, password, reply);
      if result.Success? {
        user := Some(result.value);
        r := Success(());
      } else {
        error := Some(MessageOr(result.error, ContextLoginFallback));
        r := Failure(result.error);
      }
      isLoading := false;
    }

    /** `logout`: signs out through the service and forgets the user,
        whatever the server said. */
    method Logout(b: Browser, reply: Reply<()>) returns (sent: Option<Request>)
      modifies this, b
      ensures sent == AuthService.LogoutRequest(old(b.storage))
      ensures user == None && isLoading == old(isLoading) && error == old(error)
      ensures b.storage == WithoutSession(old(b.storage))
      ensures b.location == (if sent.Some? && ApiClient.EndsSession(reply) then LoginPath else old(b.location))
      ensures b.defaultHeaders == old(b.defaultHeaders)
    {
      sent := AuthService.Logout(b, reply);
      user := None;
    }
  }

  /** `useAuth`: the provider's value, or the error thrown outside one. */
  function UseAuth(provider: Option<AuthProvider>): (r: Result<AuthProvider>)
    ensures r.Success? <==> provider.Some?
    ensures r.Success? ==> r.value == provider.value
    ensures r.Failure? ==> r.error == Error(OutsideProvider)
  {
    if provider.Some? then Success(provider.value) else Failure(Error(OutsideProvider))
  }

  /** The role flags of the context agree with the `UserRole` enumeration
      and are never both set. */
  lemma RoleFlagsFollowEnum(u: User)
    ensures FlagsOf(Some(u)).isAdmin <==> u.role == RoleName(Admin)
    ensures FlagsOf(Some(u)).isTeacher <==> u.role == RoleName(Teacher)
    ensures FlagsOf(Some(u)).isAdmin ==> !FlagsOf(Some(u)).isTeacher
  {
    RoleRoundTrip(Admin);
    RoleRoundTrip(Teacher);
  }

  /** A reload after a sign-in that stored a token: a fresh provider,
      hydrated from the storage the login left, restores the signed-in user
      and its flags. */
  method HydrateAfterLogin(b: Browser, email: string, password: string, u: User)
    returns (reloaded: AuthProvider)
    requires u.token != ""
    modifies b
    ensures reloaded.user == Some(u) && !reloaded.isLoading
    ensures reloaded.Value().isAuthenticated
    ensures reloaded.Value().isAdmin <==> u.role == RoleName(Admin)
  {
    ghost var before := b.storage;
    var first := new AuthProvider();
    var _, _ := first.Login(b, email, password, Ok(u));
    AuthService.LoginThenCurrentUser(before, u);
    reloaded := new AuthProvider();
    reloaded.Hydrate(b);
    RoleFlagsFollowEnum(u);
  }
}

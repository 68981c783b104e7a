/** The auth service (src/api/authService.ts): signing in and out, and the
    session as it is kept in `localStorage`. */
module AuthService {
  import opened Http
  import opened Web
  import opened Messages
  import opened SessionCodec
  import ApiClient

  /** The message a failed login throws: 400 means bad credentials, 403 a
      non-admin account, and anything else (including no response at all)
      the generic text. */
  function LoginFailureMessage(status: Option<int>): (m: string)
    ensures m == InvalidCredentials <==> status == Some(400)
    ensures m == AdminOnly <==> status == Some(403)
    ensures m == LoginFailed <==> status != Some(400) && status != Some(403)
  {
    if status == Some(400) then InvalidCredentials
    else if status == Some(403) then AdminOnly
    else LoginFailed
  }

  /** The storage after a login reply: token and serialized user are
      written only when the reply carries a non-empty token. */
  function StoredAfterLogin(storage: map<string, string>, reply: Reply<User>): map<string, string> {
    if reply.Ok? && reply.value.token != "" then
      storage[TokenKey := reply.value.token][UserKey := Encode(reply.value)]
    else storage
  }

  /** The login request; it goes through plain axios, not the shared
      instance, so neither interceptor sees it. */
  function LoginRequest(email: string, password: string): Request {
    Request(Post, "/auth/login", Json([("email", JString(email)), ("password", JString(password))]))
  }

  /** `login`: posts the credentials, stores the session when a token came
      back, and returns the response user either way. */
  method Login(b: Browser, email: string, password: string, reply: Reply<User>)
    returns (sent: Request, r: Result<User>)
    modifies b
    ensures sent == LoginRequest(email, password)
    ensures reply.Ok? ==> r == Success(reply.value)
    ensures reply.Fail? ==> r == Failure(Error(LoginFailureMessage(reply.status)))
    ensures b.storage == StoredAfterLogin(old(b.storage), reply)
    ensures b.location == old(b.location) && b.defaultHeaders == old(b.defaultHeaders)
  {
    sent := LoginRequest(email, password);
    match reply
    case Ok(user) =>
      if user.token != "" {
        b.storage := b.storage[TokenKey := user.token];
        b.storage := b.storage[UserKey := Encode(user)];
      }
      r := Success(user);
    case Fail(status) =>
      var message := LoginFailed;
      if status.Some? {
        if status.value == 400 {
          message := InvalidCredentials;
        } else if status.value == 403 {
          message := AdminOnly;
        }
      }
      r := Failure(Error(message));
  }

  /** `getCurrentUser`: nothing when the stored text is missing or empty,
      otherwise the parse of it, which fails on malformed text. */
  function CurrentUser(storage: map<string, string>): (r: Result<Option<User>>)
    ensures r == Success(None) <==> !Truthy(storage, UserKey)
    ensures r.Success? && r.value.Some? ==> storage[UserKey] == Encode(r.value.value)
    ensures r.Failure? ==> Truthy(storage, UserKey) && Decode(storage[UserKey]).None?
  {
    if UserKey in storage && storage[UserKey] != "" then
      var parsed := Decode(storage[UserKey]);
      if parsed.Some? then
        EncodeDecode(storage[UserKey]);
        Success(Some(parsed.value))
      else Failure(Error(MalformedUser))
    else Success(None)
  }

  /** `isAuthenticated`: a non-empty token is stored. */
  function IsAuthenticated(storage: map<string, string>): (b: bool)
    ensures b <==> ApiClient.BearerFor(storage).Some?
  {
    Truthy(storage, TokenKey)
  }

  /** The request `logout` sends for the session in `storage`, if any: only
      a user that parses and has a non-empty id is signed out server-side. */
  function LogoutRequest(storage: map<string, string>): (q: Option<Request>)
    ensures q.Some? <==> CurrentUser(storage).Success? && CurrentUser(storage).value.Some?
                         && CurrentUser(storage).value.value.id != ""
    ensures q.Some? ==>
              q.value == Request(Post, "/auth/logout/" + CurrentUser(storage).value.value.id, NoBody)
  {
    var cu := CurrentUser(storage);
    if cu.Success? && cu.value.Some? && cu.value.value.id != "" then
      Some(Request(Post, "/auth/logout/" + cu.value.value.id, NoBody))
    else None
  }

  /** `logout`: signs out server-side when a stored user with an id exists,
      then removes both keys whatever happened; it never fails. The server
      call goes through the shared instance, so its response interceptor
      runs on the reply. */
  method Logout(b: Browser, reply: Reply<()>) returns (sent: Option<Request>)
    modifies b
    ensures sent == LogoutRequest(old(b.storage))
    ensures b.storage == WithoutSession(old(b.storage))
    ensures b.location == (if sent.Some? && ApiClient.EndsSession(reply) then LoginPath else old(b.location))
    ensures b.defaultHeaders == old(b.defaultHeaders)
  {
    sent := LogoutRequest(b.storage);
    if sent.Some? {
      var _ := ApiClient.OnResponse(b, reply);
    }
    b.storage := b.storage - {TokenKey};
    b.storage := b.storage - {UserKey};
  }

  /** `setAuthToken`: a truthy token becomes the default bearer header;
      anything else removes that header. */
  method SetAuthToken(b: Browser, token: Option<string>)
    modifies b
    ensures token.Some? && token.value != "" ==>
              b.defaultHeaders == old(b.defaultHeaders)[AuthorizationHeader := Bearer(token.value)]
    ensures token.None? || token.value == "" ==>
              b.defaultHeaders == old(b.defaultHeaders) - {AuthorizationHeader}
    ensures b.storage == old(b.storage) && b.location == old(b.location)
  {
    if token.Some? && token.value != "" {
      b.defaultHeaders := b.defaultHeaders[AuthorizationHeader := "Bearer " + token.value];
    } else {
      b.defaultHeaders := b.defaultHeaders - {AuthorizationHeader};
    }
  }

  // ---------------------------------------------------------------------
  // Properties of the session

  /** A login that returns a token leaves a session that reads back as the
      returned user and counts as authenticated. */
  lemma LoginThenCurrentUser(storage: map<string, string>, user: User)
    requires user.token != ""
    ensures CurrentUser(StoredAfterLogin(storage, Ok(user))) == Success(Some(user))
    ensures IsAuthenticated(StoredAfterLogin(storage, Ok(user)))
  {
    DecodeEncode(user);
    EncodeNonEmpty(user);
  }

  /** A login without a token, or a failed one, leaves storage as it was. */
  lemma LoginWithoutTokenStoresNothing(storage: map<string, string>, reply: Reply<User>)
    requires reply.Fail? || reply.value.token == ""
    ensures StoredAfterLogin(storage, reply) == storage
  {
  }

  /** Once the session keys are gone, nobody is signed in and no user is
      read back, whichever path removed them. */
  lemma ClearedSessionIsSignedOut(storage: map<string, string>)
    ensures !IsAuthenticated(WithoutSession(storage))
    ensures CurrentUser(WithoutSession(storage)) == Success(None)
    ensures LogoutRequest(WithoutSession(storage)).None?
  {
  }

  /** A login never fails with an empty message, so the fallbacks of its
      callers are never shown for it. */
  lemma LoginMessageNonEmpty(status: Option<int>)
    ensures LoginFailureMessage(status) != ""
    ensures MessageOr(Error(LoginFailureMessage(status)), LoginPageFallback) == LoginFailureMessage(status)
    ensures MessageOr(Error(LoginFailureMessage(status)), ContextLoginFallback) == LoginFailureMessage(status)
  {
  }
}

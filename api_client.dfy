/** The interceptors of the shared axios instance (src/api/apiClient.ts):
    one decorates every outgoing request with the stored token, the other
    ends the session when the backend answers 401 or 403. */
module ApiClient {
  import opened Http
  import opened Web
  import opened Messages

  /** The per-request configuration the request interceptor receives;
      `headers` may be missing. */
  class RequestConfig {
    var headers: Option<map<string, string>>

    constructor (headers: Option<map<string, string>>)
      ensures this.headers == headers
    {
      this.headers := headers;
    }
  }

  /** The header value the request interceptor adds for a stored token:
      present exactly when the token is truthy. */
  function BearerFor(storage: map<string, string>): (h: Option<string>)
    ensures h.Some? <==> Truthy(storage, TokenKey)
    ensures h.Some? ==> h.value == Bearer(storage[TokenKey])
  {
    if Truthy(storage, TokenKey) then Some(Bearer(storage[TokenKey])) else None
  }

  /** The request interceptor: sets `Authorization` when a non-empty token
      is stored and the config has headers, and leaves it alone otherwise. */
  method OnRequest(b: Browser, config: RequestConfig)
    modifies config
    ensures old(config.headers).Some? ==>
              config.headers == Some(Decorated(b.storage, old(config.headers).value))
    ensures old(config.headers).None? ==> config.headers == None
  {
    if TokenKey in b.storage && b.storage[TokenKey] != "" && config.headers.Some? {
      config.headers := Some(config.headers.value[AuthorizationHeader := "Bearer " + b.storage[TokenKey]]);
    }
  }

  /** The statuses on which the response interceptor ends the session. */
  predicate EndsSession<T>(reply: Reply<T>) {
    reply.Fail? && (reply.status == Some(401) || reply.status == Some(403))
  }

  /** The response interceptor: a reply always reaches the caller as it
      came; a 401 or 403 first clears both session keys and sends the
      browser to the login page, and any other reply touches nothing. */
  method OnResponse<T>(b: Browser, reply: Reply<T>) returns (out: Reply<T>)
    modifies b
    ensures out == reply
    ensures EndsSession(reply) ==>
              b.storage == WithoutSession(old(b.storage)) && b.location == LoginPath
    ensures !EndsSession(reply) ==>
              b.storage == old(b.storage) && b.location == old(b.location)
    ensures b.defaultHeaders == old(b.defaultHeaders)
  {
    if reply.Fail? && (reply.status == Some(401) || reply.status == Some(403)) {
      b.storage := b.storage - {TokenKey};
      b.storage := b.storage - {UserKey};
      b.location := "/login";
    }
    out := reply;
  }

  /** The header map after the interceptor, as a value. */
  function Decorated(storage: map<string, string>, headers: map<string, string>): map<string, string> {
    if BearerFor(storage).Some? then headers[AuthorizationHeader := BearerFor(storage).value] else headers
  }

  /** The request interceptor only ever adds or replaces `Authorization`:
      every other header reaches the backend as the caller set it, and the
      bearer header is present iff a non-empty token is stored (or the
      caller set one). */
  lemma DecoratedKeepsOtherHeaders(storage: map<string, string>, headers: map<string, string>)
    ensures forall k :: k in headers && k != AuthorizationHeader ==>
              k in Decorated(storage, headers) && Decorated(storage, headers)[k] == headers[k]
    ensures Truthy(storage, TokenKey) ==>
              Decorated(storage, headers)[AuthorizationHeader] == "Bearer " + storage[TokenKey]
    ensures !Truthy(storage, TokenKey) ==> Decorated(storage, headers) == headers
  {
  }
}

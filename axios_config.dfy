/**
 * The shared HTTP client's request interceptor (src/axiosConfig.tsx): each
 * outgoing request config gets `Authorization: Bearer <token>` when
 * localStorage holds a truthy `accessToken`.
 */
module AxiosConfig {
  import opened Http

  const AccessTokenKey := "accessToken"
  const AuthorizationHeader := "Authorization"

  /** `localStorage.getItem("accessToken")` is truthy: present and non-empty. */
  predicate HasToken(storage: map<string, string>) {
    AccessTokenKey in storage && storage[AccessTokenKey] != ""
  }

  /**
   * The headers after the interceptor: with a token, `Authorization` is set
   * (replacing any earlier value) to "Bearer " followed by the token, and no
   * other header is touched; without one, the headers are left as they were.
   */
  function WithBearer(headers: map<string, string>, storage: map<string, string>): (h: map<string, string>)
    ensures HasToken(storage) ==>
              AuthorizationHeader in h && h[AuthorizationHeader] == "Bearer " + storage[AccessTokenKey]
    ensures !HasToken(storage) ==> h == headers
    ensures forall k :: k != AuthorizationHeader ==> (k in h <==> k in headers)
    ensures forall k :: k != AuthorizationHeader && k in headers ==> h[k] == headers[k]
  {
    if HasToken(storage) then headers[AuthorizationHeader := "Bearer " + storage[AccessTokenKey]]
    else headers
  }

  /** Running the interceptor twice gives the same headers as running it once. */
  lemma WithBearerIdempotent(headers: map<string, string>, storage: map<string, string>)
    ensures WithBearer(WithBearer(headers, storage), storage) == WithBearer(headers, storage)
  {
    var once := WithBearer(headers, storage);
    var twice := WithBearer(once, storage);
    assert twice.Keys == once.Keys;
  }

  /** An axios request config: the interceptor mutates its `headers` in place. */
  class RequestConfig {
    var verb: Method
    var url: string
    var data: Body
    var headers: map<string, string>

    constructor (verb: Method, url: string, data: Body, headers: map<string, string>)
      ensures this.verb == verb && this.url == url && this.data == data && this.headers == headers
    {
      this.verb, this.url, this.data, this.headers := verb, url, data, headers;
    }
  }

  /**
   * The fulfilled branch of the request interceptor. It reads the stored
   * token (passed in as the storage it reads, which it cannot write), sets
   * the header on `config` itself and returns that same object; the method,
   * URL and body are untouched.
   */
  method OnRequest(config: RequestConfig, storage: map<string, string>) returns (r: RequestConfig)
    modifies config
    ensures r == config
    ensures config.headers == WithBearer(old(config.headers), storage)
    ensures config.verb == old(config.verb) && config.url == old(config.url) && config.data == old(config.data)
  {
    if HasToken(storage) {
      config.headers := config.headers[AuthorizationHeader := "Bearer " + storage[AccessTokenKey]];
    }
    return config;
  }

  /** A rejected promise, carrying its reason. */
  datatype Rejection<+E> = Rejected(reason: E)

  /** The error branch of the request interceptor: reject with the very error it was given. */
  function OnRequestError<E>(error: E): (r: Rejection<E>)
    ensures r.reason == error
  {
    Rejected(error)
  }
}

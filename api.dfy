/**
 * The HTTP client wrapper: the base URL of the client and its two interceptors.
 *
 * The HTTP library itself stays abstract. Browser storage is a map from keys to
 * strings, the page address (`window.location.href`) a string, and the request
 * headers a map. A promise that an interceptor settles is a `Settled` value, and
 * whether assigning the page address throws is a parameter chosen by the
 * environment.
 */
module Api {
  import opened Wrappers

  const TokenKey: string := "token"
  const AuthorizationHeader: string := "Authorization"
  const BearerPrefix: string := "Bearer "
  const LoginPath: string := "/auth/login"
  const DefaultBaseUrl: string := "http://localhost:3000/api"
  const Unauthorized: int := 401

  type Storage = map<string, string>
  type Headers = map<string, string>

  /** JavaScript truthiness of a string that may be missing (`null` / `undefined`). */
  predicate Truthy(v: Option<string>) {
    v.Some? && v.value != ""
  }

  /** `localStorage.getItem(key)`: `null` (here `None`) for a key that is not stored. */
  function GetItem(storage: Storage, key: string): (v: Option<string>)
    ensures v.Some? <==> key in storage
    ensures v.Some? ==> v.value == storage[key]
  {
    if key in storage then Some(storage[key]) else None
  }

  /** The client's base URL: the configured value when it is truthy, else the local default. */
  function BaseUrl(configured: Option<string>): (url: string)
    ensures Truthy(configured) ==> url == configured.value
    ensures !Truthy(configured) ==> url == DefaultBaseUrl
    ensures url != ""
  {
    if Truthy(configured) then configured.value else DefaultBaseUrl
  }

  /** The value of the authorization header for a token. */
  function Bearer(token: string): (h: string)
    ensures |h| == |BearerPrefix| + |token|
    ensures h[..|BearerPrefix|] == BearerPrefix && h[|BearerPrefix|..] == token
  {
    BearerPrefix + token
  }

  /** The headers a request leaves the request interceptor with, given the stored token:
      a truthy token sets the authorization header; nothing else is ever touched. */
  function WithToken(headers: Headers, token: Option<string>): (h: Headers)
    ensures Truthy(token) ==> AuthorizationHeader in h && h[AuthorizationHeader] == Bearer(token.value)
    ensures !Truthy(token) ==> h == headers
    ensures forall k :: k != AuthorizationHeader ==> (k in h <==> k in headers)
    ensures forall k :: k in headers && k != AuthorizationHeader ==> h[k] == headers[k]
  {
    if Truthy(token) then headers[AuthorizationHeader := Bearer(token.value)] else headers
  }

  /** Applying the request interceptor twice gives the same headers as once. */
  lemma WithTokenIdempotent(headers: Headers, token: Option<string>)
    ensures WithToken(WithToken(headers, token), token) == WithToken(headers, token)
  {
  }

  /** The response an HTTP error may carry. */
  datatype Response = Response(status: int, data: string)

  /** An HTTP error; identity of the error object is value equality here. */
  datatype HttpError = HttpError(message: string, response: Option<Response>)

  /** How an interceptor settles the promise it returns. */
  datatype Settled<T> = Resolve(value: T) | Reject(error: HttpError)

  /** `error.response?.status === 401`: false for an error without a response. */
  predicate IsUnauthorized(e: HttpError) {
    e.response.Some? && e.response.value.status == Unauthorized
  }

  /** The request configuration the HTTP library hands to the request interceptor. */
  class RequestConfig {
    var url: string
    var headers: Headers

    constructor (url: string, headers: Headers)
      ensures this.url == url && this.headers == headers
    {
      this.url := url;
      this.headers := headers;
    }
  }

  /** The browser state the interceptors read and write. */
  class Browser {
    var storage: Storage
    var location: string

    constructor (storage: Storage, location: string)
      ensures this.storage == storage && this.location == location
    {
      this.storage := storage;
      this.location := location;
    }

    function State(): (b: BrowserState)
      reads this
    {
      BrowserState(storage, location)
    }
  }

  /** The browser state as a value. */
  datatype BrowserState = BrowserState(storage: Storage, location: string)

  /** The request interceptor: updates the headers of `config` in place and fulfils
      with the same object; the browser is only read. */
  method OnRequest(config: RequestConfig, browser: Browser) returns (r: RequestConfig)
    modifies config
    ensures r == config
    ensures config.headers == WithToken(old(config.headers), GetItem(browser.storage, TokenKey))
    ensures config.url == old(config.url)
    ensures browser.State() == old(browser.State())
  {
    var token := GetItem(browser.storage, TokenKey);
    if Truthy(token) {
      config.headers := config.headers[AuthorizationHeader := Bearer(token.value)];
    }
    r := config;
  }

  /** The request interceptor's error handler: rejects with the same error. */
  function OnRequestError(e: HttpError): (r: Settled<RequestConfig>)
    ensures r.Reject? && r.error == e
  {
    Reject(e)
  }

  /** The response interceptor's success handler: fulfils with the same response. */
  function OnResponse(response: Response): (r: Settled<Response>)
    ensures r.Resolve? && r.value == response
  {
    Resolve(response)
  }

  /** The browser after the response interceptor's error handler: a 401 removes the
      token and sends the page to the login route, unless assigning the address
      throws, in which case the address stays; any other error changes nothing. */
  function AfterResponseError(b: BrowserState, e: HttpError, hrefThrows: bool): (r: BrowserState)
    ensures IsUnauthorized(e) ==> r.storage == b.storage - {TokenKey}
    ensures IsUnauthorized(e) && !hrefThrows ==> r.location == LoginPath
    ensures IsUnauthorized(e) && hrefThrows ==> r.location == b.location
    ensures !IsUnauthorized(e) ==> r == b
  {
    if !IsUnauthorized(e) then b
    else BrowserState(b.storage - {TokenKey}, if hrefThrows then b.location else LoginPath)
  }

  /** The response interceptor's error handler: always rejects with the very same
      error, whatever it did to the browser and whether or not the address assignment
      threw. */
  method OnResponseError(browser: Browser, e: HttpError, hrefThrows: bool) returns (r: Settled<Response>)
    modifies browser
    ensures r.Reject? && r.error == e
    ensures browser.State() == AfterResponseError(old(browser.State()), e, hrefThrows)
  {
    if IsUnauthorized(e) {
      browser.storage := browser.storage - {TokenKey};
      if !hrefThrows {
        browser.location := LoginPath;
      }
    }
    r := Reject(e);
  }

  /** After a 401 the token is gone, so the next request leaves its headers as they are. */
  lemma UnauthorizedDropsBearer(b: BrowserState, e: HttpError, hrefThrows: bool, headers: Headers)
    requires IsUnauthorized(e)
    ensures GetItem(AfterResponseError(b, e, hrefThrows).storage, TokenKey) == None
    ensures WithToken(headers, GetItem(AfterResponseError(b, e, hrefThrows).storage, TokenKey)) == headers
  {
  }

  /** A second 401 finds nothing left to do: the handler's effect is idempotent. */
  lemma ResponseErrorIdempotent(b: BrowserState, e: HttpError, hrefThrows: bool)
    ensures AfterResponseError(AfterResponseError(b, e, hrefThrows), e, hrefThrows)
            == AfterResponseError(b, e, hrefThrows)
  {
  }

  /** Storage keys other than the token survive any error. */
  lemma ResponseErrorKeepsOtherKeys(b: BrowserState, e: HttpError, hrefThrows: bool, key: string)
    requires key != TokenKey
    ensures key in AfterResponseError(b, e, hrefThrows).storage <==> key in b.storage
    ensures key in b.storage ==> AfterResponseError(b, e, hrefThrows).storage[key] == b.storage[key]
  {
  }
}

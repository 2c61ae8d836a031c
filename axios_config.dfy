/** The shared HTTP client's interceptors (config/axios.config.ts): the
    Bearer header on requests, and the 401/403 navigation on errors. */
module HttpClient {
  import opened Wrappers
  import opened Strings
  import opened TokenHolder

  const DefaultBaseUrl := "https://localhost:7068/api/v1"

  /** `process.env.NEXT_PUBLIC_API_URL || default` */
  function BaseUrl(configured: Option<string>): (url: string)
    ensures url != ""
    ensures Present(configured) ==> url == configured.value
    ensures !Present(configured) ==> url == DefaultBaseUrl
  {
    if Present(configured) then configured.value else DefaultBaseUrl
  }

  type Headers = map<string, string>

  /** The header step: only a present, non-empty token and existing
      headers get an Authorization entry. */
  function WithBearer(headers: Option<Headers>, token: Option<string>): Option<Headers> {
    if Present(token) && headers.Some? then Some(headers.value["Authorization" := "Bearer " + token.value])
    else headers
  }

  /** The Authorization header is added, with the token, exactly when a
      token is present and headers exist; no other header changes. */
  lemma BearerRule(headers: Option<Headers>, token: Option<string>)
    ensures WithBearer(headers, token).Some? <==> headers.Some?
    ensures !Present(token) ==> WithBearer(headers, token) == headers
    ensures Present(token) && headers.Some? ==>
      var h := WithBearer(headers, token).value;
      && h.Keys == headers.value.Keys + {"Authorization"}
      && h["Authorization"] == "Bearer " + token.value
      && forall k :: k in headers.value && k != "Authorization" ==> h[k] == headers.value[k]
    ensures headers.Some? && "Authorization" !in headers.value ==>
      ("Authorization" in WithBearer(headers, token).value <==> Present(token))
  {
  }

  /** Intercepting the same request twice adds nothing more. */
  lemma BearerIdempotent(headers: Option<Headers>, token: Option<string>)
    ensures WithBearer(WithBearer(headers, token), token) == WithBearer(headers, token)
  {
    if Present(token) && headers.Some? {
      var once := headers.value["Authorization" := "Bearer " + token.value];
      assert once["Authorization" := "Bearer " + token.value] == once;
    }
  }

  class RequestConfig {
    var headers: Option<Headers>

    constructor (headers: Option<Headers>)
      ensures this.headers == headers
    {
      this.headers := headers;
    }
  }

  /** The request interceptor: the config's headers are changed in place
      and the same config is returned. */
  method InterceptRequest(config: RequestConfig, tokens: TokenCell) returns (r: RequestConfig)
    modifies config
    ensures r == config
    ensures config.headers == WithBearer(old(config.headers), tokens.currentToken)
  {
    var token := tokens.GetToken();
    if Present(token) && config.headers.Some? {
      config.headers := Some(config.headers.value["Authorization" := "Bearer " + token.value]);
    }
    r := config;
  }

  datatype HttpResponse = HttpResponse(status: int)
  /** A failed request; `response` is absent for network errors. */
  datatype HttpError = HttpError(message: string, response: Option<HttpResponse>)

  /** No login redirect from the login page itself or the email check. */
  predicate LoginRedirectExempt(currentPath: string) {
    currentPath == "/login" || StartsWith(currentPath, "/verify-email")
  }

  /** Where the error interceptor sends the browser, if anywhere;
      `currentPath` is pathname + search and `encode` stands for
      `encodeURIComponent`. */
  function ErrorNavigation(error: HttpError, currentPath: string, encode: string -> string): Option<string> {
    if error.response.None? then None
    else if error.response.value.status == 401 then
      if LoginRedirectExempt(currentPath) then None
      else Some("/login?returnUrl=" + encode(currentPath))
    else if error.response.value.status == 403 then Some("/")
    else None
  }

  /** A 401 outside the exempt pages goes to the login page with the
      current path as return URL; a 403 goes home; nothing else navigates. */
  lemma ErrorNavigationRule(error: HttpError, currentPath: string, encode: string -> string)
    ensures var nav := ErrorNavigation(error, currentPath, encode);
      && (nav.Some? <==>
            (error.response.Some? &&
             ((error.response.value.status == 401 && !LoginRedirectExempt(currentPath))
              || error.response.value.status == 403)))
      && (error.response.Some? && error.response.value.status == 401 && !LoginRedirectExempt(currentPath) ==>
            nav == Some("/login?returnUrl=" + encode(currentPath)))
      && (error.response.Some? && error.response.value.status == 403 ==> nav == Some("/"))
  {
  }

  /** The exemption compares pathname + search, so a 401 on
      "/login?x=1" still redirects to the login page. */
  lemma LoginWithQueryStillRedirects(encode: string -> string)
    ensures ErrorNavigation(HttpError("", Some(HttpResponse(401))), "/login?x=1", encode)
      == Some("/login?returnUrl=" + encode("/login?x=1"))
  {
  }

  /** `window.location`: assigning `href` navigates. */
  class BrowserLocation {
    var pathname: string
    var search: string
    var href: string

    constructor (pathname: string, search: string, href: string)
      ensures this.pathname == pathname && this.search == search && this.href == href
    {
      this.pathname := pathname;
      this.search := search;
      this.href := href;
    }
  }

  /** The error interceptor: navigate as `ErrorNavigation` says, then
      reject with the same error. */
  method InterceptResponseError(error: HttpError, location: BrowserLocation, encode: string -> string)
    returns (rejected: HttpError)
    modifies location
    ensures rejected == error
    ensures var nav := ErrorNavigation(error, old(location.pathname + location.search), encode);
      location.href == if nav.Some? then nav.value else old(location.href)
    ensures location.pathname == old(location.pathname) && location.search == old(location.search)
  {
    if error.response.Some? {
      if error.response.value.status == 401 {
        var currentPath := location.pathname + location.search;
        if currentPath != "/login" && !StartsWith(currentPath, "/verify-email") {
          location.href := "/login?returnUrl=" + encode(currentPath);
        }
      }
      if error.response.value.status == 403 {
        location.href := "/";
      }
    }
    rejected := error;
  }

  /** The success interceptor hands the response on unchanged. */
  method InterceptResponse(response: HttpResponse) returns (r: HttpResponse)
    ensures r == response
  {
    r := response;
  }
}

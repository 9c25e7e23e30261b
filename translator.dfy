/**
 * Translation of a decoded Netty request into the request value the
 * Atmosphere pipeline consumes (`messageReceived`, `getHeaders`,
 * `getBaseUri` of NettyAtmosphereHandler).
 */
module Translator {
  import opened Wrappers
  import opened Java
  import opened Netty

  /** The fields `AtmosphereRequest.Builder` receives. */
  datatype AtmosphereRequest = AtmosphereRequest(
    requestURI: string,
    requestURL: string,
    headers: map<string, string>,
    methodName: string,
    contentType: string,
    body: seq<int8>)

  /** The Host header as Java's string concatenation renders it: `"null"` when absent. */
  function HostText(req: HttpRequest): (h: string)
    ensures HOST in req.headers && |req.headers[HOST]| > 0 ==> h == req.headers[HOST][0]
    ensures HOST !in req.headers || req.headers[HOST] == [] ==> h == "null"
  {
    match req.Header(HOST)
    case Some(h) => h
    case None => "null"
  }

  /** `getBaseUri`: the scheme and the Host text, ending in exactly one appended `/`. */
  function BaseUri(req: HttpRequest): (b: string)
    ensures |b| == |"http://" + HostText(req)| + 1
    ensures b[..|b| - 1] == "http://" + HostText(req) && b[|b| - 1] == '/'
  {
    "http://" + HostText(req) + "/"
  }

  /**
   * The text handed to `new URI(..)`: the base URI without its last
   * character, followed by the request's URI. Dropping that character removes
   * exactly the `/` that `getBaseUri` appended.
   */
  function RequestUriText(req: HttpRequest): (u: string)
    ensures u == "http://" + HostText(req) + req.uri
  {
    var base := BaseUri(req);
    base[..|base| - 1] + req.uri
  }

  /** Every listed header name has at least one value, so `get(0)` succeeds. */
  predicate AllHeadersHaveValues(req: HttpRequest)
  {
    forall n :: n in req.headers ==> |req.headers[n]| > 0
  }

  /** The single-valued header view: each name with its first value. */
  function FirstValues(req: HttpRequest): (m: map<string, string>)
  {
    map n | n in req.headers && |req.headers[n]| > 0 :: req.headers[n][0]
  }

  /**
   * `getHeaders`: fills a map with `headers.put(name, getHeaders(name).get(0))`
   * for every header name, so each name keeps its FIRST value.
   */
  method GetHeaders(req: HttpRequest) returns (r: Result<map<string, string>, Fault>)
    ensures r.Success? <==> AllHeadersHaveValues(req)
    ensures r.Failure? ==> r.error == IndexOutOfBounds
    ensures r.Success? ==> r.value.Keys == req.headers.Keys
    ensures r.Success? ==> forall n :: n in r.value ==> r.value[n] == req.headers[n][0]
    ensures r.Success? ==> r.value == FirstValues(req)
  {
    var headers: map<string, string> := map[];
    var names := req.headers.Keys;
    while names != {}
      invariant names <= req.headers.Keys
      invariant headers.Keys == req.headers.Keys - names
      invariant forall n :: n in headers ==> |req.headers[n]| > 0 && headers[n] == req.headers[n][0]
      decreases names
    {
      var name :| name in names;
      var values := req.headers[name];
      if |values| == 0 {
        return Failure(IndexOutOfBounds);
      }
      headers := headers[name := values[0]];
      names := names - {name};
    }
    return Success(headers);
  }

  /**
   * The translation step of `messageReceived`, in the order the Java code
   * evaluates it: `new URI`, `toURL`, `getHeaders`, then the first
   * `Content-Type` value; the first step that throws decides the failure.
   */
  function Translation(req: HttpRequest, lib: UriLibrary): (r: Result<AtmosphereRequest, Fault>)
    ensures r == Failure(URISyntax) <==> !lib.parses(RequestUriText(req))
    ensures r == Failure(MalformedURL) <==> lib.parses(RequestUriText(req)) && lib.toUrl(RequestUriText(req)).None?
    ensures r.Failure? ==> r.error == URISyntax || r.error == MalformedURL || r.error == IndexOutOfBounds
  {
    var u := RequestUriText(req);
    if !lib.parses(u) then Failure(URISyntax)
    else match lib.toUrl(u)
      case None => Failure(MalformedURL)
      case Some(url) =>
        if !AllHeadersHaveValues(req) then Failure(IndexOutOfBounds)
        else
          var contentTypes := req.HeaderValues(CONTENT_TYPE);
          if |contentTypes| == 0 then Failure(IndexOutOfBounds)
          else Success(AtmosphereRequest(url, url, FirstValues(req), req.methodName, contentTypes[0], req.content))
  }

  /** The translation succeeds exactly when none of its four steps throws. */
  lemma TranslationSucceedsIff(req: HttpRequest, lib: UriLibrary)
    ensures var u := "http://" + HostText(req) + req.uri;
      Translation(req, lib).Success? <==>
        && lib.parses(u)
        && lib.toUrl(u).Some?
        && AllHeadersHaveValues(req)
        && CONTENT_TYPE in req.headers && |req.headers[CONTENT_TYPE]| > 0
  {
  }

  /**
   * The request URI and URL are one and the same string, the URL form of
   * `"http://" + host + uri`.
   */
  lemma RequestUrlIsHostAndPath(req: HttpRequest, lib: UriLibrary)
    requires Translation(req, lib).Success?
    ensures var t := Translation(req, lib).value;
      && t.requestURI == t.requestURL
      && lib.parses("http://" + HostText(req) + req.uri)
      && lib.toUrl("http://" + HostText(req) + req.uri) == Some(t.requestURL)
  {
  }

  /**
   * The header map has exactly the request's header names as keys, each
   * bound to the first of its values.
   */
  lemma HeaderMapKeepsFirstValues(req: HttpRequest, lib: UriLibrary)
    requires Translation(req, lib).Success?
    ensures var t := Translation(req, lib).value;
      && t.headers.Keys == req.headers.Keys
      && forall n :: n in t.headers ==> t.headers[n] == req.headers[n][0]
  {
  }

  /** Method, content type and body come straight from the decoded request. */
  lemma ContentTypeIsFirstValue(req: HttpRequest, lib: UriLibrary)
    requires Translation(req, lib).Success?
    ensures var t := Translation(req, lib).value;
      && t.contentType == req.headers[CONTENT_TYPE][0]
      && t.methodName == req.methodName
      && t.body == req.content
  {
  }

  /** A request without any `Content-Type` value fails with IndexOutOfBounds once the URI and the headers pass. */
  lemma MissingContentTypeFails(req: HttpRequest, lib: UriLibrary)
    requires lib.parses(RequestUriText(req)) && lib.toUrl(RequestUriText(req)).Some?
    requires AllHeadersHaveValues(req)
    requires CONTENT_TYPE !in req.headers
    ensures Translation(req, lib) == Failure(IndexOutOfBounds)
  {
  }

  /**
   * A missing Host header is not a failure of its own: the URI text becomes
   * `"http://null" + uri`, and only the URI library can reject it.
   */
  lemma MissingHostIsNotAFailure(req: HttpRequest, lib: UriLibrary)
    requires HOST !in req.headers
    ensures RequestUriText(req) == "http://null" + req.uri
    ensures Translation(req, lib).Failure? && Translation(req, lib).error == URISyntax
      <==> !lib.parses("http://null" + req.uri)
  {
  }

  /**
   * GET /chat with Host `example.com:8080` and Content-Type `text/plain`,
   * under a URI library that accepts the text and renders it unchanged.
   */
  lemma ChatRequestExample(lib: UriLibrary)
    requires forall s :: lib.parses(s) && lib.toUrl(s) == Some(s)
    ensures var req := HttpRequest("GET", "/chat",
        map[HOST := ["example.com:8080"], CONTENT_TYPE := ["text/plain"]], []);
      Translation(req, lib) == Success(AtmosphereRequest(
        "http://example.com:8080/chat", "http://example.com:8080/chat",
        map[HOST := "example.com:8080", CONTENT_TYPE := "text/plain"],
        "GET", "text/plain", []))
  {
    var req := HttpRequest("GET", "/chat",
      map[HOST := ["example.com:8080"], CONTENT_TYPE := ["text/plain"]], []);
    assert RequestUriText(req) == "http://example.com:8080/chat";
    assert FirstValues(req) == map[HOST := "example.com:8080", CONTENT_TYPE := "text/plain"];
  }
}

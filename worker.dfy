/** The worker's entry point (index.js): the `fetch` listener that classifies
    a request by path and method, and the CORS preflight answer. The router
    that `handleRequest` builds is not part of this model. */
module Worker {
  import opened Wrappers
  import opened Http

  /** What the listener reads of a request: the URL's path, the method (`verb`) and
      the headers present (name to value). */
  datatype Request = Request(pathname: string, verb: string, headers: map<string, string>)

  /** What the listener passes to `event.respondWith`: a response, or the
      request handed on to `handleRequest`. */
  datatype Dispatch = Respond(response: Response) | Route(request: Request)

  const ProxyEndpoint: string := "/api"

  /** The `Allow` value of a non-preflight OPTIONS answer. */
  const AllowedMethods: string := "GET, HEAD, POST, OPTIONS"

  /** `corsHeaders`. */
  function CorsHeaders(): (h: map<string, string>)
    ensures h.Keys == {"Access-Control-Allow-Origin", "Access-Control-Allow-Methods", "Access-Control-Max-Age"}
    ensures h["Access-Control-Allow-Origin"] == "*"
    ensures h["Access-Control-Allow-Methods"] == "GET,HEAD,POST,OPTIONS"
    ensures h["Access-Control-Max-Age"] == "86400"
  {
    map["Access-Control-Allow-Origin" := "*",
        "Access-Control-Allow-Methods" := "GET,HEAD,POST,OPTIONS",
        "Access-Control-Max-Age" := "86400"]
  }

  /** The code's preflight test: all three headers present. The Fetch
      Standard makes `Access-Control-Request-Headers` optional; this test
      does not. */
  predicate IsPreflight(req: Request) {
    && "Origin" in req.headers
    && "Access-Control-Request-Method" in req.headers
    && "Access-Control-Request-Headers" in req.headers
  }

  /** `handleOptions`: a preflight gets the CORS headers and echoes the
      requested headers as allowed; any other OPTIONS request only learns the
      allowed methods. Either way the status is 200 and there is no body. */
  function HandleOptions(req: Request): (r: Response)
    ensures r.status == 200 && r.statusText == "" && r.body == None
    ensures "Access-Control-Allow-Headers" in r.headers <==> IsPreflight(req)
    ensures IsPreflight(req) ==>
      r.headers.Keys == CorsHeaders().Keys + {"Access-Control-Allow-Headers"} &&
      (forall k :: k in CorsHeaders() ==> r.headers[k] == CorsHeaders()[k]) &&
      r.headers["Access-Control-Allow-Headers"] == req.headers["Access-Control-Request-Headers"]
    ensures !IsPreflight(req) ==> r.headers == map["Allow" := AllowedMethods]
  {
    if IsPreflight(req) then
      Response(200, "", CorsHeaders()["Access-Control-Allow-Headers" := req.headers["Access-Control-Request-Headers"]], None)
    else
      Response(200, "", map["Allow" := AllowedMethods], None)
  }

  /** The methods the listener hands on to the router. */
  predicate IsRouted(verb: string) {
    verb == "GET" || verb == "HEAD" || verb == "POST"
  }

  /** The `fetch` listener. */
  function HandleFetch(req: Request): (d: Dispatch)
    ensures !(ProxyEndpoint <= req.pathname) ==> d == Respond(Response(404, "Invalid route", map[], None))
    ensures ProxyEndpoint <= req.pathname && req.verb == "OPTIONS" ==> d == Respond(HandleOptions(req))
    ensures ProxyEndpoint <= req.pathname && IsRouted(req.verb) ==> d == Route(req)
    ensures ProxyEndpoint <= req.pathname && req.verb != "OPTIONS" && !IsRouted(req.verb) ==>
      d == Respond(Response(405, "Method Not Allowed", map[], None))
    ensures d.Route? ==> d.request == req
  {
    if ProxyEndpoint <= req.pathname then
      if req.verb == "OPTIONS" then Respond(HandleOptions(req))
      else if IsRouted(req.verb) then Route(req)
      else Respond(Response(405, "Method Not Allowed", map[], None))
    else
      Respond(Response(404, "Invalid route", map[], None))
  }

  /** The four methods both OPTIONS answers list. */
  function Advertised(): seq<string> {
    ["GET", "HEAD", "POST", "OPTIONS"]
  }

  /** Both header values write the list `Advertised()`. */
  lemma CorsMethodsJoinAdvertised()
    ensures CorsHeaders()["Access-Control-Allow-Methods"] == Join(Advertised(), [','])
  {
  }

  lemma AllowJoinsAdvertised()
    ensures AllowedMethods == Join(Advertised(), [','] + " ")
  {
    var sep := [','] + " ";
    var j3 := Join(["OPTIONS"], sep);
    var j2 := Join(["POST", "OPTIONS"], sep);
    var j1 := Join(["HEAD", "POST", "OPTIONS"], sep);
    assert ["GET", "HEAD", "POST", "OPTIONS"][1..] == ["HEAD", "POST", "OPTIONS"];
    assert ["HEAD", "POST", "OPTIONS"][1..] == ["POST", "OPTIONS"];
    assert ["POST", "OPTIONS"][1..] == ["OPTIONS"];
    assert j3 == "OPTIONS";
    assert j2 == "POST" + sep + j3;
    assert j1 == "HEAD" + sep + j2;
    assert Join(Advertised(), sep) == "GET" + sep + j1;
  }

  /** Both OPTIONS answers advertise the same four methods. */
  lemma AdvertisedMethods()
    ensures ParseList(CorsHeaders()["Access-Control-Allow-Methods"]) == Advertised()
    ensures ParseList(AllowedMethods) == Advertised()
  {
    CorsMethodsJoinAdvertised();
    AllowJoinsAdvertised();
    ParseListJoin(Advertised(), "");
    ParseListJoin(Advertised(), " ");
    assert [','] + "" == [','];
  }

  /** Under the API prefix, a method is refused with 405 exactly when the
      OPTIONS answers do not advertise it (see `AdvertisedMethods`). */
  lemma RefusedIffNotAdvertised(req: Request)
    requires ProxyEndpoint <= req.pathname
    ensures (HandleFetch(req).Respond? && HandleFetch(req).response.status == 405) <==>
            req.verb !in Advertised()
  {
  }

  /** Outside the API prefix the answer is 404 whatever the method and the
      headers. */
  lemma OutsideApiIsNotFound(req: Request, verb: string, headers: map<string, string>)
    requires !(ProxyEndpoint <= req.pathname)
    ensures HandleFetch(req) == HandleFetch(Request(req.pathname, verb, headers))
    ensures HandleFetch(req).Respond? && HandleFetch(req).response.status == 404
  {
  }
}

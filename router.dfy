/** The worker's entry point: preflight handling, dispatch on method and URL
    suffix, and CORS decoration (fetch and manageCORSForRequests in
    src/index.js). */
module Router {
  import opened Wrappers
  import opened JsValues
  import opened Notifications
  import opened Http
  import opened Store

  /** Which handler answers a request. */
  datatype Handler =
    | Preflight
    | Create
    | Retrieve
    | DeleteAll
    | Preferences
    | Classify
    | NotFound

  /** `s.endsWith(suffix)`. */
  predicate EndsWith(s: string, suffix: string) {
    |suffix| <= |s| && s[|s| - |suffix|..] == suffix
  }

  datatype Route = Route(verb: string, suffix: string, handler: Handler)

  /** The five routes of the dispatch chain, in the order they are tried. */
  const Routes: seq<Route> := [
    Route("POST", "/api/notifications", Create),
    Route("GET", "/api/notifications", Retrieve),
    Route("DELETE", "/api/notifications", DeleteAll),
    Route("GET", "/api/preferences", Preferences),
    Route("POST", "/api/ai", Classify)
  ]

  predicate Matches(r: Route, verb: string, url: string) {
    r.verb == verb && EndsWith(url, r.suffix)
  }

  /** The handler fetch picks: OPTIONS first for any URL, then the first
      route whose method equals the request's and whose suffix ends the
      whole URL, else the 404 fallback. */
  function Dispatch(verb: string, url: string): (h: Handler)
    ensures h == Preflight <==> verb == "OPTIONS"
  {
    if verb == "OPTIONS" then Preflight
    else if verb == "POST" && EndsWith(url, "/api/notifications") then Create
    else if verb == "GET" && EndsWith(url, "/api/notifications") then Retrieve
    else if verb == "DELETE" && EndsWith(url, "/api/notifications") then DeleteAll
    else if verb == "GET" && EndsWith(url, "/api/preferences") then Preferences
    else if verb == "POST" && EndsWith(url, "/api/ai") then Classify
    else NotFound
  }

  /** The chain agrees with the route table: the handler of the first
      route that matches, or the 404 fallback when none does. */
  lemma DispatchFollowsTable(verb: string, url: string)
    requires verb != "OPTIONS"
    ensures Dispatch(verb, url) == NotFound <==> forall i :: 0 <= i < |Routes| ==> !Matches(Routes[i], verb, url)
    ensures Dispatch(verb, url) != NotFound ==>
              exists i :: && 0 <= i < |Routes|
                          && Matches(Routes[i], verb, url)
                          && Routes[i].handler == Dispatch(verb, url)
                          && forall j :: 0 <= j < i ==> !Matches(Routes[j], verb, url)
  {
    assert Routes[0] == Route("POST", "/api/notifications", Create);
    assert Routes[1] == Route("GET", "/api/notifications", Retrieve);
    assert Routes[2] == Route("DELETE", "/api/notifications", DeleteAll);
    assert Routes[3] == Route("GET", "/api/preferences", Preferences);
    assert Routes[4] == Route("POST", "/api/ai", Classify);
  }

  /** A string cannot end with two suffixes when the shorter does not end
      the longer. */
  lemma {:induction false} NotBothSuffixes(s: string, a: string, b: string)
    requires |b| <= |a| && !EndsWith(a, b)
    ensures !(EndsWith(s, a) && EndsWith(s, b))
  {
    if |a| <= |s| {
      assert a[|a| - |b|..] != b;
      assert s[|s| - |a|..][|a| - |b|..] == s[|s| - |b|..];
    }
  }

  /** No URL ends with two of the three route suffixes. */
  lemma SuffixesExclusive(url: string)
    ensures !(EndsWith(url, "/api/notifications") && EndsWith(url, "/api/preferences"))
    ensures !(EndsWith(url, "/api/notifications") && EndsWith(url, "/api/ai"))
    ensures !(EndsWith(url, "/api/preferences") && EndsWith(url, "/api/ai"))
  {
    var n, p, a := "/api/notifications", "/api/preferences", "/api/ai";
    assert n[2..][0] == 'p' && p[0] == '/';
    NotBothSuffixes(url, n, p);
    assert n[11..][0] == 'c' && a[0] == '/';
    NotBothSuffixes(url, n, a);
    assert p[9..][0] == 'e' && a[0] == '/';
    NotBothSuffixes(url, p, a);
  }

  /** No URL matches two routes, so the order of the chain does not
      matter. */
  lemma RoutesUnambiguous(verb: string, url: string, i: int, j: int)
    requires 0 <= i < j < |Routes|
    ensures !(Matches(Routes[i], verb, url) && Matches(Routes[j], verb, url))
  {
    SuffixesExclusive(url);
    assert Routes[0] == Route("POST", "/api/notifications", Create);
    assert Routes[1] == Route("GET", "/api/notifications", Retrieve);
    assert Routes[2] == Route("DELETE", "/api/notifications", DeleteAll);
    assert Routes[3] == Route("GET", "/api/preferences", Preferences);
    assert Routes[4] == Route("POST", "/api/ai", Classify);
  }

  /** A URL made of a path, a `?` and a query without `/` ends with none of the
      route suffixes, since each holds a `/` and no `?`. */
  lemma {:induction false} QueryBlocksSuffix(path: string, query: string, suffix: string)
    requires '/' !in query
    requires |suffix| > 0 && suffix[0] == '/' && '?' !in suffix
    ensures !EndsWith(path + "?" + query, suffix)
  {
    var u := path + "?" + query;
    if |suffix| <= |u| {
      var start := |u| - |suffix|;
      if |suffix| <= |query| {
        assert u[start] == query[start - |path| - 1];
        assert u[start..][0] != suffix[0];
      } else {
        assert u[|path|] == '?';
        assert u[start..][|path| - start] != suffix[|path| - start];
      }
    }
  }

  /** A request URL with a query string that holds no `/` reaches no
      handler, whatever the path: only OPTIONS is still answered. */
  lemma QueryStringDefeatsRoute(verb: string, path: string, query: string)
    requires '/' !in query
    ensures Dispatch(verb, path + "?" + query) in {Preflight, NotFound}
  {
    var s1, s2, s3 := "/api/notifications", "/api/preferences", "/api/ai";
    assert forall i :: 0 <= i < |s1| ==> s1[i] != '?';
    assert forall i :: 0 <= i < |s2| ==> s2[i] != '?';
    assert forall i :: 0 <= i < |s3| ==> s3[i] != '?';
    QueryBlocksSuffix(path, query, s1);
    QueryBlocksSuffix(path, query, s2);
    QueryBlocksSuffix(path, query, s3);
  }

  lemma {:induction false} EndsWithAppend(a: string, b: string, suffix: string)
    requires EndsWith(b, suffix)
    ensures EndsWith(a + b, suffix)
  {
    assert (a + b)[|a + b| - |suffix|..] == b[|b| - |suffix|..];
  }

  /** The whole URL is matched, query included: a query string that itself
      ends in a route suffix reaches that route, whatever the path. */
  lemma QueryEndingInSuffixRoutes(path: string, query: string)
    requires EndsWith(query, "/api/notifications")
    ensures Dispatch("POST", path + "?" + query) == Create
    ensures Dispatch("GET", path + "?" + query) == Retrieve
    ensures Dispatch("DELETE", path + "?" + query) == DeleteAll
  {
    assert path + "?" + query == (path + "?") + query;
    EndsWithAppend(path + "?", query, "/api/notifications");
  }

  /** Only the end of the URL is looked at: any origin and any leading
      path reach the notification handlers. */
  lemma AnyPrefixRoutes(prefix: string)
    ensures Dispatch("POST", prefix + "/api/notifications") == Create
    ensures Dispatch("GET", prefix + "/api/notifications") == Retrieve
    ensures Dispatch("DELETE", prefix + "/api/notifications") == DeleteAll
  {
    var u := prefix + "/api/notifications";
    assert u[|u| - 18..] == "/api/notifications";
  }

  /** The three headers both the preflight response and
      manageCORSForRequests set. */
  const CorsHeaders: map<string, string> := map[
    "access-control-allow-origin" := "*",
    "access-control-allow-methods" := "GET, POST, DELETE, OPTIONS",
    "access-control-allow-headers" := "Content-Type"
  ]

  /** manageCORSForRequests: the three CORS headers are set, replacing any
      value they had; status, body and every other header are kept. */
  function WithCors(resp: Response): (r: Response)
    ensures r.status == resp.status && r.body == resp.body
    ensures forall k :: k in r.headers <==> k in resp.headers || k in CorsHeaders
    ensures forall k :: k in CorsHeaders ==> r.headers[k] == CorsHeaders[k]
    ensures forall k :: k in resp.headers && k !in CorsHeaders ==> r.headers[k] == resp.headers[k]
  {
    resp.(headers := resp.headers + CorsHeaders)
  }

  /** Decorating twice is decorating once. */
  lemma WithCorsIdempotent(resp: Response)
    ensures WithCors(WithCors(resp)) == WithCors(resp)
  {
    assert WithCors(WithCors(resp)).headers == WithCors(resp).headers;
  }

  /** The preflight answer: a null body, the default status 200 and the
      three CORS headers. */
  const PreflightResponse := Response(200, NoBody, CorsHeaders)

  /** The fallback: 404 with a plain-text body and no CORS headers. */
  const NotFoundResponse := Response(404, TextBody("Invalid request"), map[])

  datatype Request = Request(verb: string, url: string, body: Json)

  /** fetch. The preferences and classifier handlers are outside this model:
      their responses are given. A create request uses ids(i) and clock(i)
      for its i-th element. */
  method Fetch(store: NotificationStore, request: Request, ids: nat -> string, clock: nat -> int,
               preferences: Response, classification: Response) returns (resp: Response)
    modifies store
    ensures var h := Dispatch(request.verb, request.url);
            && (h == Preflight ==> resp == PreflightResponse)
            && (h == Create ==> resp == WithCors(CreateResponse(CreateBatch(request.body, ids, clock))))
            && (h == Retrieve ==> resp == WithCors(ListResponse(Listed(old(store.entry)))))
            && (h == DeleteAll ==> resp == WithCors(DeletedResponse))
            && (h == Preferences ==> resp == WithCors(preferences))
            && (h == Classify ==> resp == WithCors(classification))
            && (h == NotFound ==> resp == NotFoundResponse)
    ensures var h := Dispatch(request.verb, request.url);
            && (h == Create ==> store.entry == AfterCreate(old(store.entry), request.body, ids, clock))
            && (h == DeleteAll ==> store.entry == None)
            && (h != Create && h != DeleteAll ==> store.entry == old(store.entry))
  {
    match Dispatch(request.verb, request.url)
    case Preflight =>
      resp := PreflightResponse;
    case Create =>
      resp := store.CreateNotifications(request.body, ids, clock);
      resp := WithCors(resp);
    case Retrieve =>
      resp := store.RetrieveNotifications();
      resp := WithCors(resp);
    case DeleteAll =>
      resp := store.DeleteAllNotifications();
      resp := WithCors(resp);
    case Preferences =>
      resp := WithCors(preferences);
    case Classify =>
      resp := WithCors(classification);
    case NotFound =>
      resp := NotFoundResponse;
  }
}

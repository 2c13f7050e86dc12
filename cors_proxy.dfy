/**
 * The request handler of the CORS proxy worker: an ordered chain of early
 * returns that either answers locally or forwards a POST to the Solana RPC
 * endpoint and relays the answer.
 */
module CorsProxy {
  import opened Wrappers

  const SolanaRpc: string := "https://api.mainnet-beta.solana.com"

  type Headers = map<string, string>

  /** What the handler reads of a request: HTTP method, URL path, `origin` header and body text. */
  datatype Request = Request(verb: string, path: string, origin: Option<string>, body: string)

  /** A response; `body` is None for the preflight answer's null body. */
  datatype Response = Response(status: int, body: Option<string>, headers: Headers)

  /** The call made to the upstream RPC node, and what it answers. */
  datatype UpstreamRequest = UpstreamRequest(url: string, verb: string, headers: Headers, body: string)
  datatype UpstreamReply = UpstreamReply(status: int, text: string)

  /** Which branch of the handler a request takes. */
  datatype Route = Preflight | Health | NotFound | MethodNotAllowed | Proxy

  function CorsHeaders(origin: Option<string>): (h: Headers)
    ensures "access-control-allow-origin" in h
    ensures h["access-control-allow-origin"] == if origin.Some? then origin.value else "*"
    ensures h.Keys == {"access-control-allow-origin", "access-control-allow-methods",
                       "access-control-allow-headers", "access-control-max-age"}
    ensures h["access-control-allow-methods"] == "POST,OPTIONS"
  {
    map[
      "access-control-allow-origin" := if origin.Some? then origin.value else "*",
      "access-control-allow-methods" := "POST,OPTIONS",
      "access-control-allow-headers" := "content-type",
      "access-control-max-age" := "86400"]
  }

  /** The order of the checks in `fetch`: preflight, health check, path, verb. */
  function RouteOf(verb: string, path: string): Route {
    if verb == "OPTIONS" then Preflight
    else if path == "/" && verb == "GET" then Health
    else if path != "/rpc" then NotFound
    else if verb != "POST" then MethodNotAllowed
    else Proxy
  }

  /** Each route described on its own, without the order of the checks. */
  lemma RouteClassification(verb: string, path: string)
    ensures RouteOf(verb, path) == Preflight <==> verb == "OPTIONS"
    ensures RouteOf(verb, path) == Health <==> verb == "GET" && path == "/"
    ensures RouteOf(verb, path) == NotFound <==>
              verb != "OPTIONS" && path != "/rpc" && !(verb == "GET" && path == "/")
    ensures RouteOf(verb, path) == MethodNotAllowed <==>
              path == "/rpc" && verb != "POST" && verb != "OPTIONS"
    ensures RouteOf(verb, path) == Proxy <==> verb == "POST" && path == "/rpc"
  {
  }

  /** Consequences of the order: POST "/" is not found, GET "/rpc" is not allowed. */
  lemma RouteOrderExamples()
    ensures RouteOf("POST", "/") == NotFound
    ensures RouteOf("GET", "/rpc") == MethodNotAllowed
    ensures RouteOf("OPTIONS", "/anything") == Preflight
    ensures RouteOf("HEAD", "/") == NotFound
  {
  }

  /** The request the proxy sends upstream for a POST to "/rpc". */
  function Forwarded(req: Request): (u: UpstreamRequest)
    ensures u.url == SolanaRpc && u.verb == "POST" && u.body == req.body
  {
    UpstreamRequest(SolanaRpc, "POST", map["content-type" := "application/json"], req.body)
  }

  /** `fetch`, with the upstream call passed in as a function. */
  function Handle(req: Request, upstream: UpstreamRequest -> UpstreamReply): (r: Response)
    ensures forall k :: k in CorsHeaders(req.origin) ==>
              k in r.headers && r.headers[k] == CorsHeaders(req.origin)[k]
  {
    var cors := CorsHeaders(req.origin);
    match RouteOf(req.verb, req.path)
    case Preflight => Response(204, None, cors)
    case Health => Response(200, Some("ok"), cors["cache-control" := "no-store"])
    case NotFound => Response(404, Some("not found"), cors)
    case MethodNotAllowed => Response(405, Some("method not allowed"), cors)
    case Proxy =>
      var reply := upstream(Forwarded(req));
      Response(reply.status, Some(reply.text),
               cors["content-type" := "application/json; charset=utf-8"]["cache-control" := "no-store"])
  }

  /** Every request that is not forwarded gets one of four fixed answers. */
  lemma HandleLocalAnswers(req: Request, upstream: UpstreamRequest -> UpstreamReply)
    ensures req.verb == "OPTIONS" ==> Handle(req, upstream).status == 204
                                        && Handle(req, upstream).body == None
    ensures req.verb == "GET" && req.path == "/" ==>
              var r := Handle(req, upstream);
              r.status == 200 && r.body == Some("ok")
              && "cache-control" in r.headers && r.headers["cache-control"] == "no-store"
    ensures RouteOf(req.verb, req.path) == NotFound ==>
              Handle(req, upstream).status == 404 && Handle(req, upstream).body == Some("not found")
    ensures RouteOf(req.verb, req.path) == MethodNotAllowed ==>
              Handle(req, upstream).status == 405 && Handle(req, upstream).body == Some("method not allowed")
    ensures RouteOf(req.verb, req.path) != Proxy ==>
              Handle(req, upstream) == Handle(req, _ => UpstreamReply(502, ""))
  {
  }

  /** POST "/rpc" forwards the body and relays the upstream status and text unchanged. */
  lemma HandleRelaysUpstream(req: Request, upstream: UpstreamRequest -> UpstreamReply)
    requires req.verb == "POST" && req.path == "/rpc"
    ensures var r := Handle(req, upstream);
            var reply := upstream(UpstreamRequest(SolanaRpc, "POST",
                                                  map["content-type" := "application/json"], req.body));
            && r.status == reply.status && r.body == Some(reply.text)
            && r.headers["content-type"] == "application/json; charset=utf-8"
            && r.headers["cache-control"] == "no-store"
  {
  }
}

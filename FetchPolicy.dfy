/** The fetch handler: which requests the worker answers, and the two ways it
    answers them. Each policy is a function from the content cache and the
    outcome of the one network fetch it may make to the reply and the new
    content cache. */
module FetchPolicy {
  import opened Types
  import opened UrlKeys

  /** What the page gets: no `respondWith` (the browser fetches as usual), a
      response, or the rejection of the promise passed to `respondWith`. */
  datatype Reply = NotIntercepted | Respond(response: Response) | Reject(error: NetError)

  datatype Served = Served(reply: Reply, content: Store)

  datatype Route = PassThrough | OnlineFirst | CacheFirst

  /** The routing decision for a request: only GET requests whose fetch key
      has a truthy fingerprint are answered; `/` goes online-first, every other
      key cache-first. */
  function RouteOf(httpMethod: string, origin: string, url: Url, resources: Fingerprints): (route: Route)
    ensures route == PassThrough <==> httpMethod != "GET" || !Truthy(resources, FetchKey(origin, url))
    ensures route == OnlineFirst <==> httpMethod == "GET" && FetchKey(origin, url) == "/" && Truthy(resources, "/")
    ensures route == CacheFirst ==> FetchKey(origin, url) in resources && FetchKey(origin, url) != "/"
  {
    if httpMethod != "GET" then PassThrough
    else
      var key := FetchKey(origin, url);
      if !Truthy(resources, key) then PassThrough
      else if key == "/" then OnlineFirst
      else CacheFirst
  }

  /** Cache-first with lazy population: a hit is served from the cache; a miss
      goes to the network and an ok response is stored before it is returned. */
  function CacheFirstReply(content: Store, url: Url, net: NetOutcome): (s: Served)
    ensures forall u :: u in content ==> u in s.content && s.content[u] == content[u]
    ensures s.content.Keys <= content.Keys + {url}
    ensures url in content ==> s.reply == Respond(content[url])
    ensures url !in content ==> (url in s.content <==> net.Delivered? && net.response.ok)
    ensures url in s.content ==> s.reply == Respond(s.content[url])
    ensures s.reply.Reject? <==> url !in content && net.Rejected?
    ensures s.reply.Reject? ==> s.reply.error == net.error
    ensures url !in content && net.Delivered? ==> s.reply == Respond(net.response)
  {
    if url in content then Served(Respond(content[url]), content)
    else
      match net
      case Rejected(error) => Served(Reject(error), content)
      case Delivered(response) =>
        if response.ok then Served(Respond(response), content[url := response])
        else Served(Respond(response), content)
  }

  /** Online-first for the entry document: a network response is stored
      (whatever its status) and returned; when the network fails the cached
      copy is returned, or the network error is raised again. */
  function OnlineFirstReply(content: Store, url: Url, net: NetOutcome): (s: Served)
    ensures net.Delivered? ==> s.reply == Respond(net.response) && s.content == content[url := net.response]
    ensures net.Rejected? ==> s.content == content
    ensures net.Rejected? && url in content ==> s.reply == Respond(content[url])
    ensures net.Rejected? && url !in content ==> s.reply == Reject(net.error)
    ensures s.reply.Respond? ==> url in s.content && s.reply.response == s.content[url]
    ensures forall u :: u in content && u != url ==> u in s.content && s.content[u] == content[u]
  {
    match net
    case Delivered(response) => Served(Respond(response), content[url := response])
    case Rejected(error) =>
      if url in content then Served(Respond(content[url]), content)
      else Served(Reject(error), content)
  }

  /** The whole fetch handler: route the request and apply the policy. The
      cache is looked up and written under the request's full URL, not under
      the derived key. */
  function HandleFetch(httpMethod: string, origin: string, url: Url, resources: Fingerprints,
                       content: Store, net: NetOutcome): (s: Served)
    ensures s.reply == NotIntercepted <==> RouteOf(httpMethod, origin, url, resources) == PassThrough
    ensures s.reply == NotIntercepted ==> s.content == content
    ensures forall u :: u in content && u != url ==> u in s.content && s.content[u] == content[u]
    ensures s.content.Keys <= content.Keys + {url}
  {
    match RouteOf(httpMethod, origin, url, resources)
    case PassThrough => Served(NotIntercepted, content)
    case OnlineFirst => OnlineFirstReply(content, url, net)
    case CacheFirst => CacheFirstReply(content, url, net)
  }

  /** Once cache-first has an entry for a URL, a repeated request is answered
      from the cache with the same response whatever the network does. */
  lemma {:induction false} CacheFirstRepeatIsHit(content: Store, url: Url, first: NetOutcome, second: NetOutcome)
    requires url in CacheFirstReply(content, url, first).content
    ensures var s1 := CacheFirstReply(content, url, first);
            CacheFirstReply(s1.content, url, second) == s1
  {
  }

  /** Offline fallback for the entry document: after one successful online-first
      fetch, a later fetch whose network fails still gets that response. */
  lemma {:induction false} OnlineFirstOfflineFallback(content: Store, url: Url, response: Response, error: NetError)
    ensures var s1 := OnlineFirstReply(content, url, Delivered(response));
            var s2 := OnlineFirstReply(s1.content, url, Rejected(error));
            s2.reply == Respond(response) && s2.content == s1.content
  {
  }

  /** The entry document at the bare origin, at `origin/` and at `origin/#...`
      is routed online-first whenever `/` has a fingerprint. */
  lemma {:induction false} EntryDocumentOnlineFirst(origin: string, fragment: string, v: string, resources: Fingerprints)
    requires Truthy(resources, "/")
    ensures RouteOf("GET", origin, origin, resources) == OnlineFirst
    ensures RouteOf("GET", origin, origin + "/", resources) == OnlineFirst
    ensures RouteOf("GET", origin, origin + "/#" + fragment, resources) == OnlineFirst
    ensures RouteOf("GET", origin, origin + "/?v=" + v, resources) == OnlineFirst
  {
    RootAliases(origin, fragment, v);
  }
}

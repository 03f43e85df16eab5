/** The worker's event handlers over its three caches. The caches are fields
    that the handlers update step by step, as the worker's loops do; each
    handler is proved to reach the state its specification function in
    Lifecycle or FetchPolicy describes. */
module ServiceWorker {
  import opened Types
  import opened UrlKeys
  import opened CacheApi
  import opened FetchPolicy
  import opened Lifecycle

  /** `event.data` of a message: a string, or any other value. */
  datatype MessageData = Text(text: string) | NotText

  datatype Action = SkipWaitingAction | DownloadOfflineAction | Ignored

  /** The message handler's decision: the two control strings, compared strictly,
      and nothing else. */
  function Dispatch(data: MessageData): (action: Action)
    ensures action == SkipWaitingAction <==> data == Text("skipWaiting")
    ensures action == DownloadOfflineAction <==> data == Text("downloadOffline")
  {
    if data == Text("skipWaiting") then SkipWaitingAction
    else if data == Text("downloadOffline") then DownloadOfflineAction
    else Ignored
  }

  class Worker {
    /** `TEMP`: shell files staged by install. */
    var temp: Store
    /** `CACHE_NAME`: the content cache pages are served from. */
    var content: Store
    /** `MANIFEST`: holds the record of the last activated fingerprint table. */
    var manifests: Store

    function State(): Caches
      reads this
    {
      Caches(temp, content, manifests)
    }

    /** A worker whose origin has no caches yet. */
    constructor ()
      ensures State() == NoCaches
    {
      temp, content, manifests := map[], map[], map[];
    }

    /** Install: `addAll` of every `CORE` path into `TEMP`, all or nothing. */
    method Install(core: seq<string>, origin: string, net: Url -> NetOutcome) returns (ok: bool)
      modifies this`temp
      ensures var batch := AddAll(ResolveAll(origin, core), net);
              ok == batch.Some? && temp == if ok then old(temp) + batch.value else old(temp)
    {
      var batch := AddAll(ResolveAll(origin, core), net);
      ok := batch.Some?;
      if ok {
        temp := temp + batch.value;
      }
    }

    /** Activate: the try block, then the catch block that deletes all three
        caches when the try block failed or the host rejected a storage call. */
    method Activate(resources: Fingerprints, origin: string, hostFault: bool) returns (ok: bool)
      modifies this
      ensures ok == !ActivationFails(old(State()), origin, hostFault)
      ensures State() == Activated(old(State()), resources, origin, hostFault)
    {
      ok := Reconcile(resources, origin);
      if !ok || hostFault {
        content := map[];
        temp := map[];
        manifests := map[];
        ok := false;
      }
    }

    /** The try block of the activate handler, on a host whose storage calls all succeed. */
    method Reconcile(resources: Fingerprints, origin: string) returns (ok: bool)
      modifies this
      ensures ok == !ActivationFails(old(State()), origin, false)
      ensures ok ==> State() == Activated(old(State()), resources, origin, false)
    {
      var manifestUrl := ManifestUrl(origin);
      if manifestUrl !in manifests {
        // no prior manifest: reset the content cache and promote TEMP
        content := map[];
        PromoteTemp();
        temp := map[];
        manifests := manifests[manifestUrl := ManifestRecord(resources)];
        return true;
      }
      var previous := ParseManifest(manifests[manifestUrl]);
      if previous.None? {
        return false;
      }
      EvictStale(resources, previous.value, origin);
      PromoteTemp();
      temp := map[];
      manifests := manifests[manifestUrl := ManifestRecord(resources)];
      ok := true;
    }

    /** The upgrade loop over the content cache: delete each entry whose
        activation key has no truthy fingerprint or one that differs from the
        previous manifest. */
    method EvictStale(resources: Fingerprints, previous: Fingerprints, origin: string)
      modifies this`content
      ensures content == Survivors(old(content), resources, previous, origin)
    {
      ghost var before := content;
      var pending := content.Keys;
      while pending != {}
        invariant pending <= before.Keys
        invariant content == map u | u in before && (u in pending || Retained(resources, previous, ActivationKey(origin, u))) :: before[u]
        decreases pending
      {
        var request :| request in pending;
        var key := ActivationKey(origin, request);
        if !Truthy(resources, key) || Lookup(resources, key) != Lookup(previous, key) {
          content := content - {request};
        }
        pending := pending - {request};
      }
    }

    /** The copy loop from `TEMP` into the content cache, overwriting. */
    method PromoteTemp()
      modifies this`content
      ensures content == old(content) + temp
    {
      var pending := temp.Keys;
      while pending != {}
        invariant pending <= temp.Keys
        invariant content == old(content) + map u | u in temp && u !in pending :: temp[u]
        decreases pending
      {
        var request :| request in pending;
        content := content[request := temp[request]];
        pending := pending - {request};
      }
    }

    /** The two loops of `downloadOffline` that decide what to fetch: collect the
        activation keys of the cached URLs, then keep the table keys, in order,
        that are not among them. */
    method MissingKeys(resourceKeys: seq<string>, origin: string) returns (missing: seq<string>)
      ensures missing == Missing(resourceKeys, DerivedKeys(content, origin))
    {
      var present: set<string> := {};
      var pending := content.Keys;
      while pending != {}
        invariant pending <= content.Keys
        invariant present == set u | u in content && u !in pending :: ActivationKey(origin, u)
        decreases pending
      {
        var request :| request in pending;
        present := present + {ActivationKey(origin, request)};
        pending := pending - {request};
      }
      assert present == DerivedKeys(content, origin);
      missing := [];
      for i := 0 to |resourceKeys|
        invariant missing == Missing(resourceKeys[..i], present)
      {
        assert resourceKeys[..i + 1][..i] == resourceKeys[..i];
        if resourceKeys[i] !in present {
          missing := missing + [resourceKeys[i]];
        }
      }
      assert resourceKeys[..|resourceKeys|] == resourceKeys;
    }

    /** `downloadOffline`: `addAll` of the missing table keys into the content cache. */
    method DownloadOffline(resourceKeys: seq<string>, origin: string, net: Url -> NetOutcome) returns (ok: bool)
      modifies this`content
      ensures var batch := AddAll(ResolveAll(origin, Missing(resourceKeys, DerivedKeys(old(content), origin))), net);
              ok == batch.Some? && content == if ok then old(content) + batch.value else old(content)
    {
      var missing := MissingKeys(resourceKeys, origin);
      var batch := AddAll(ResolveAll(origin, missing), net);
      ok := batch.Some?;
      if ok {
        content := content + batch.value;
      }
    }

    /** The message handler: `downloadOffline` changes the content cache,
        `skipWaiting` only the host's lifecycle, anything else nothing. */
    method OnMessage(data: MessageData, resourceKeys: seq<string>, origin: string, net: Url -> NetOutcome)
      returns (action: Action)
      modifies this`content
      ensures action == Dispatch(data)
      ensures action != DownloadOfflineAction ==> content == old(content)
      ensures action == DownloadOfflineAction ==>
                var batch := AddAll(ResolveAll(origin, Missing(resourceKeys, DerivedKeys(old(content), origin))), net);
                content == if batch.Some? then old(content) + batch.value else old(content)
    {
      action := Dispatch(data);
      if action == DownloadOfflineAction {
        var _ := DownloadOffline(resourceKeys, origin, net);
      }
    }

    /** The fetch handler on this worker's content cache. */
    method OnFetch(httpMethod: string, url: Url, origin: string, resources: Fingerprints, net: NetOutcome)
      returns (reply: Reply)
      modifies this`content
      ensures Served(reply, content) == HandleFetch(httpMethod, origin, url, resources, old(content), net)
    {
      var served := HandleFetch(httpMethod, origin, url, resources, content, net);
      reply := served.reply;
      content := served.content;
    }
  }
}

/** What install, activate and `downloadOffline` do to the three caches, stated
    as functions of the caches before the event. The class in ServiceWorker
    performs these steps in place and is proved to reach exactly these states. */
module Lifecycle {
  import opened Types
  import opened UrlKeys
  import opened CacheApi

  /** The three caches the worker owns: `TEMP` (shell files staged by install),
      `CACHE_NAME` (the content served to pages) and `MANIFEST` (the
      fingerprint table of the last successful activation). A deleted cache is
      the empty map: `caches.open` recreates it empty, and the worker never asks
      whether a cache exists. */
  datatype Caches = Caches(temp: Store, content: Store, manifests: Store)

  const NoCaches := Caches(map[], map[], map[])

  /** The request URL of the manifest record, `'manifest'` resolved against the worker. */
  function ManifestUrl(origin: string): Url
  {
    Resolve(origin, "manifest")
  }

  /** `new Response(JSON.stringify(RESOURCES))`. */
  function ManifestRecord(resources: Fingerprints): Response
  {
    Response(true, ManifestJson(resources))
  }

  /** `manifest.json()`: the stored table, or None when the body does not parse to one. */
  function ParseManifest(record: Response): (table: Option<Fingerprints>)
    ensures record.body.ManifestJson? <==> table.Some?
    ensures table.Some? ==> ManifestRecord(table.value).body == record.body
  {
    match record.body
    case ManifestJson(t) => Some(t)
    case Payload(_) => None
  }

  /** A cached key survives an upgrade: its fingerprint is truthy in the new
      table and equal to the one in the previous manifest. */
  predicate Retained(resources: Fingerprints, previous: Fingerprints, key: string)
  {
    Truthy(resources, key) && Lookup(resources, key) == Lookup(previous, key)
  }

  /** The content entries the eviction loop of an upgrade leaves in place. */
  function Survivors(content: Store, resources: Fingerprints, previous: Fingerprints, origin: string): (kept: Store)
    ensures forall u :: u in kept <==> u in content && Retained(resources, previous, ActivationKey(origin, u))
    ensures forall u :: u in kept ==> kept[u] == content[u]
  {
    map u | u in content && Retained(resources, previous, ActivationKey(origin, u)) :: content[u]
  }

  /** Activation ends in the catch block: a host storage operation rejected, or
      the stored manifest record does not parse. */
  predicate ActivationFails(s: Caches, origin: string, hostFault: bool)
  {
    hostFault || (ManifestUrl(origin) in s.manifests && ParseManifest(s.manifests[ManifestUrl(origin)]).None?)
  }

  predicate ColdStart(s: Caches, origin: string)
  {
    ManifestUrl(origin) !in s.manifests
  }

  /** The caches after the activate handler. */
  function Activated(s: Caches, resources: Fingerprints, origin: string, hostFault: bool): (r: Caches)
    // failure: all three caches are deleted
    ensures ActivationFails(s, origin, hostFault) ==> r == NoCaches
    // success: TEMP is gone and the manifest record is replaced by the new table
    ensures !ActivationFails(s, origin, hostFault) ==>
              r.temp == map[] && r.manifests == s.manifests[ManifestUrl(origin) := ManifestRecord(resources)]
    // success: every staged shell file is in the content cache with its staged response
    ensures !ActivationFails(s, origin, hostFault) ==>
              forall u :: u in s.temp ==> u in r.content && r.content[u] == s.temp[u]
    // cold start: the content cache holds exactly what TEMP held
    ensures !ActivationFails(s, origin, hostFault) && ColdStart(s, origin) ==> r.content == s.temp
    // upgrade: an earlier entry not overwritten from TEMP stays, unchanged, exactly when its key is retained
    ensures !ActivationFails(s, origin, hostFault) && !ColdStart(s, origin) ==>
              var previous := ParseManifest(s.manifests[ManifestUrl(origin)]).value;
              forall u :: u in s.content && u !in s.temp ==>
                (u in r.content <==> Retained(resources, previous, ActivationKey(origin, u)))
                && (u in r.content ==> r.content[u] == s.content[u])
    // success: nothing else enters the content cache
    ensures !ActivationFails(s, origin, hostFault) ==>
              forall u :: u in r.content ==> u in s.temp || (u in s.content && r.content[u] == s.content[u])
  {
    var manifestUrl := ManifestUrl(origin);
    if ActivationFails(s, origin, hostFault) then NoCaches
    else if ColdStart(s, origin) then
      Caches(map[], s.temp, s.manifests[manifestUrl := ManifestRecord(resources)])
    else
      var previous := ParseManifest(s.manifests[manifestUrl]).value;
      Caches(map[], Survivors(s.content, resources, previous, origin) + s.temp,
             s.manifests[manifestUrl := ManifestRecord(resources)])
  }

  /** `currentContent` of `downloadOffline`: the activation keys of the cached URLs. */
  function DerivedKeys(content: Store, origin: string): (keys: set<string>)
    ensures forall u :: u in content ==> ActivationKey(origin, u) in keys
    ensures forall k :: k in keys ==> exists u :: u in content && ActivationKey(origin, u) == k
  {
    set u | u in content :: ActivationKey(origin, u)
  }

  /** The table keys, in table order, that have no entry among `present`. */
  function Missing(keys: seq<string>, present: set<string>): (missing: seq<string>)
    ensures forall k :: k in missing <==> k in keys && k !in present
    ensures |missing| <= |keys|
  {
    if keys == [] then []
    else
      var last := keys[|keys| - 1];
      Missing(keys[..|keys| - 1], present) + (if last in present then [] else [last])
  }

  // ---------------------------------------------------------------------------
  // Properties relating several events

  /** Activating twice with the same table (and nothing installed in between)
      evicts on the second run exactly the entries whose key has no truthy
      fingerprint. When every staged shell file has one, the second run changes
      nothing at all: whatever survived the first run already has a truthy key. */
  lemma {:induction false} ReactivationIsStable(s: Caches, resources: Fingerprints, origin: string)
    requires !ActivationFails(s, origin, false)
    ensures var s1 := Activated(s, resources, origin, false);
            var s2 := Activated(s1, resources, origin, false);
            !ActivationFails(s1, origin, false)
            && s2.content == (map u | u in s1.content && Truthy(resources, ActivationKey(origin, u)) :: s1.content[u])
            && s2.temp == s1.temp && s2.manifests == s1.manifests
    ensures (forall u :: u in s.temp ==> Truthy(resources, ActivationKey(origin, u))) ==>
              var s1 := Activated(s, resources, origin, false);
              Activated(s1, resources, origin, false) == s1
  {
    var s1 := Activated(s, resources, origin, false);
    var manifestUrl := ManifestUrl(origin);
    assert s1.manifests[manifestUrl] == ManifestRecord(resources);
    assert ParseManifest(s1.manifests[manifestUrl]) == Some(resources);
    var s2 := Activated(s1, resources, origin, false);
    assert s2.manifests == s1.manifests;
    forall k ensures Retained(resources, resources, k) == Truthy(resources, k) { }
    assert s2.content == Survivors(s1.content, resources, resources, origin);
    if forall u :: u in s.temp ==> Truthy(resources, ActivationKey(origin, u)) {
      forall u | u in s1.content ensures Truthy(resources, ActivationKey(origin, u)) {
        if u !in s.temp {
          assert !ColdStart(s, origin);
          var previous := ParseManifest(s.manifests[manifestUrl]).value;
          assert Retained(resources, previous, ActivationKey(origin, u));
        }
      }
      assert s2.content == s1.content;
    }
  }

  /** A content entry the fetch handler stored under a versioned URL
      `origin/path?v=...` is evicted by the next upgrade unless the table has a
      key with that very suffix, even when `path` itself is unchanged: activation
      does not cut the version query. */
  lemma {:induction false} VersionedEntryEvicted(s: Caches, resources: Fingerprints, origin: string,
                                                  path: string, v: string)
    requires path != "" && path[0] != '#' && !HasMarker(path)
    requires !ActivationFails(s, origin, false) && !ColdStart(s, origin)
    requires !Truthy(resources, path + "?v=" + v)
    requires origin + "/" + path + "?v=" + v !in s.temp
    ensures origin + "/" + path + "?v=" + v !in Activated(s, resources, origin, false).content
    ensures FetchKey(origin, origin + "/" + path + "?v=" + v) == path
  {
    VersionedKeysDiverge(origin, path, v);
  }

  /** The upgrade example: the previous manifest is {a: h1, b: h2}, the new
      table {a: h1, c: h3}, the content cache holds `a` and `b` and nothing is
      staged. Afterwards `a` keeps its cached body, `b` is gone and `c` is not
      fetched ahead of use. */
  lemma UpgradeExample(origin: string, bodyA: Response, bodyB: Response)
    ensures var a, b, c := Resolve(origin, "a"), Resolve(origin, "b"), Resolve(origin, "c");
            var s := Caches(map[], map[a := bodyA, b := bodyB],
                            map[ManifestUrl(origin) := ManifestRecord(map["a" := "h1", "b" := "h2"])]);
            Activated(s, map["a" := "h1", "c" := "h3"], origin, false).content == map[a := bodyA]
  {
    var a, b, c := Resolve(origin, "a"), Resolve(origin, "b"), Resolve(origin, "c");
    ActivationKeyOfResolved(origin, "a");
    ActivationKeyOfResolved(origin, "b");
    var previous := map["a" := "h1", "b" := "h2"];
    var resources := map["a" := "h1", "c" := "h3"];
    var s := Caches(map[], map[a := bodyA, b := bodyB], map[ManifestUrl(origin) := ManifestRecord(previous)]);
    assert Retained(resources, previous, "a");
    assert !Retained(resources, previous, "b");
    assert a != b by { assert a[|origin| + 1] != b[|origin| + 1]; }
    assert Survivors(s.content, resources, previous, origin) == map[a := bodyA];
  }

  lemma ResolvedUrls(origin: string, core: seq<string>)
    ensures (set u | u in ResolveAll(origin, core)) == (set p | p in core :: Resolve(origin, p))
  {
    var urls := ResolveAll(origin, core);
    forall p | p in core ensures Resolve(origin, p) in urls {
      var i :| 0 <= i < |core| && core[i] == p;
      assert urls[i] == Resolve(origin, p);
    }
  }

  /** Install followed by a cold activation: the content cache holds exactly the
      shell files, with the responses fetched at install, and nothing else from
      the table is fetched ahead of use. */
  lemma {:induction false} ColdStartHoldsShellOnly(core: seq<string>, resources: Fingerprints, origin: string,
                                                   net: Url -> NetOutcome, content: Store)
    requires AddAll(ResolveAll(origin, core), net).Some?
    ensures var staged := AddAll(ResolveAll(origin, core), net).value;
            var r := Activated(Caches(staged, content, map[]), resources, origin, false);
            r.content.Keys == (set p | p in core :: Resolve(origin, p))
            && (forall u :: u in r.content ==> r.content[u] == net(u).response)
            && r.temp == map[]
            && r.manifests == map[ManifestUrl(origin) := ManifestRecord(resources)]
  {
    var staged := AddAll(ResolveAll(origin, core), net).value;
    var s := Caches(staged, content, map[]);
    assert ColdStart(s, origin) && !ActivationFails(s, origin, false);
    assert Activated(s, resources, origin, false).content == staged;
    ResolvedUrls(origin, core);
  }

  /** Nothing is missing once every key is present. */
  lemma NothingMissing(keys: seq<string>, present: set<string>)
    requires forall k :: k in keys ==> k in present
    ensures Missing(keys, present) == []
  {
  }

  /** When every table URL can be fetched, `downloadOffline` succeeds and
      afterwards every table key (that names its own URL) is among the derived
      keys of the content cache, so a second `downloadOffline` requests nothing. */
  lemma {:induction false} DownloadOfflineCompletes(content: Store, keys: seq<string>, origin: string,
                                                    net: Url -> NetOutcome)
    requires forall k :: k in keys ==> Resolvable(k) && Storable(net, Resolve(origin, k))
    ensures var batch := AddAll(ResolveAll(origin, Missing(keys, DerivedKeys(content, origin))), net);
            batch.Some?
            && (forall k :: k in keys ==> k in DerivedKeys(content + batch.value, origin))
            && Missing(keys, DerivedKeys(content + batch.value, origin)) == []
  {
    var present := DerivedKeys(content, origin);
    var missing := Missing(keys, present);
    var urls := ResolveAll(origin, missing);
    forall i | 0 <= i < |urls| ensures Storable(net, urls[i]) {
      assert missing[i] in missing;
    }
    var batch := AddAll(urls, net).value;
    var after := content + batch;
    forall k | k in keys ensures k in DerivedKeys(after, origin) {
      if k in present {
        var u :| u in content && ActivationKey(origin, u) == k;
        assert u in after;
      } else {
        var i :| 0 <= i < |missing| && missing[i] == k;
        assert urls[i] in batch.Keys;
        ActivationKeyOfResolved(origin, k);
        assert urls[i] in after;
      }
    }
    NothingMissing(keys, DerivedKeys(after, origin));
  }
}

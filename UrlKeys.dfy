/** How the worker turns a request URL into a key of the fingerprint table:
    the fetch handler's derivation (which also cuts a `?v=` version query) and
    the simpler one used by activation and by `downloadOffline`. */
module UrlKeys {
  import opened Types

  /** `s.substring(n)` in JavaScript: the characters from index `n` on, or ""
      once `n` is past the end. */
  function Substring(s: string, n: nat): (r: string)
    ensures |r| == if n <= |s| then |s| - n else 0
    ensures forall i :: 0 <= i < |r| ==> r[i] == s[n + i]
  {
    if n <= |s| then s[n..] else ""
  }

  /** What is left of a URL once `origin.length + 1` characters (the origin and
      the slash after it) are dropped. The URL is not checked to start with the origin. */
  function Tail(origin: string, url: Url): string
  {
    Substring(url, |origin| + 1)
  }

  /** The three characters `?v=` start at index `i` of `s`. */
  predicate MarkerAt(s: string, i: int)
  {
    0 <= i && i + 3 <= |s| && s[i] == '?' && s[i + 1] == 'v' && s[i + 2] == '='
  }

  predicate HasMarker(s: string)
  {
    exists i :: 0 <= i < |s| && MarkerAt(s, i)
  }

  /** `s.indexOf('?v=', from)`: the first index at or after `from` where the
      marker starts, or -1. */
  function IndexOfMarker(s: string, from: nat): (i: int)
    requires from <= |s|
    ensures i == -1 || (from <= i && MarkerAt(s, i))
    ensures forall j :: from <= j && (i == -1 || j < i) ==> !MarkerAt(s, j)
    decreases |s| - from
  {
    if from + 3 > |s| then -1
    else if MarkerAt(s, from) then from
    else IndexOfMarker(s, from + 1)
  }

  /** `if (key.indexOf('?v=') != -1) key = key.split('?v=')[0]`: the key up to
      the first version marker. */
  function CutVersion(key: string): (r: string)
    ensures r <= key && !HasMarker(r)
    ensures !HasMarker(key) ==> r == key
    ensures HasMarker(key) ==> MarkerAt(key, |r|)
  {
    var i := IndexOfMarker(key, 0);
    if i != -1 then
      assert forall j :: MarkerAt(key[..i], j) ==> MarkerAt(key, j);
      key[..i]
    else
      assert forall j :: MarkerAt(key, j) ==> 0 <= j;
      key
  }

  /** The key the fetch handler derives from a request URL: drop the origin and
      its slash, cut at the first `?v=`, and use `/` for the bare origin, for
      `origin/#...` and for an empty remainder. */
  function FetchKey(origin: string, url: Url): (key: string)
    ensures key != "" && !HasMarker(key)
    ensures key == "/" || key <= Tail(origin, url)
    ensures url == origin || origin + "/#" <= url ==> key == "/"
  {
    var key := CutVersion(Tail(origin, url));
    if url == origin || origin + "/#" <= url || key == "" then
      assert !MarkerAt("/", 0);
      "/"
    else key
  }

  /** The key activation and `downloadOffline` derive from a cached request URL:
      drop the origin and its slash, and use `/` for an empty remainder. No
      version query is cut here. */
  function ActivationKey(origin: string, url: Url): (key: string)
    ensures key != ""
    ensures Tail(origin, url) != "" ==> key == Tail(origin, url)
  {
    var key := Tail(origin, url);
    if key == "" then "/" else key
  }

  /** The absolute URL a relative path such as a `CORE` or `RESOURCES` entry
      names, for a worker served from the root of `origin`. */
  function Resolve(origin: string, path: string): (url: Url)
    ensures origin + "/" <= url
  {
    if |path| > 0 && path[0] == '/' then origin + path else origin + "/" + path
  }

  /** The request URLs of a list of relative paths, in order (`paths.map(p => new Request(p))`). */
  function ResolveAll(origin: string, paths: seq<string>): (urls: seq<Url>)
    ensures |urls| == |paths|
    ensures forall i :: 0 <= i < |paths| ==> urls[i] == Resolve(origin, paths[i])
  {
    seq(|paths|, i requires 0 <= i < |paths| => Resolve(origin, paths[i]))
  }

  /** A table key that `Resolve` and `ActivationKey` give back unchanged: `/`
      itself, or a non-empty path that does not start with `/`. */
  predicate Resolvable(key: string)
  {
    key == "/" || (key != "" && key[0] != '/')
  }

  lemma TailAfterSlash(origin: string, rest: string)
    ensures Tail(origin, origin + "/" + rest) == rest
  {
    assert (origin + "/" + rest)[|origin| + 1..] == rest;
  }

  /** Resolving a table key and deriving the activation key of the URL gives the
      key back. */
  lemma {:induction false} ActivationKeyOfResolved(origin: string, key: string)
    requires Resolvable(key)
    ensures ActivationKey(origin, Resolve(origin, key)) == key
  {
    if key == "/" {
      assert Resolve(origin, key) == origin + "/" + "";
      TailAfterSlash(origin, "");
    } else {
      TailAfterSlash(origin, key);
    }
  }

  /** The same holds for the fetch key when the path carries no version query
      and does not start with `#`. */
  lemma {:induction false} FetchKeyOfResolved(origin: string, key: string)
    requires Resolvable(key) && !HasMarker(key) && key[0] != '#'
    ensures FetchKey(origin, Resolve(origin, key)) == key
  {
    if key == "/" {
      assert Resolve(origin, key) == origin + "/" + "";
      TailAfterSlash(origin, "");
    } else {
      var url := Resolve(origin, key);
      TailAfterSlash(origin, key);
      assert url[|origin| + 1] == key[0];
      assert !(origin + "/#" <= url);
    }
  }

  /** Appending `?v=` and anything else to a path without a marker puts the
      first marker exactly where the path ends. */
  lemma {:induction false} FirstMarkerAtEnd(path: string, v: string)
    requires !HasMarker(path)
    ensures CutVersion(path + "?v=" + v) == path
  {
    var s := path + "?v=" + v;
    assert MarkerAt(s, |path|);
    var r := CutVersion(s);
    forall j | 0 <= j < |path| ensures !MarkerAt(s, j) {
      if j + 3 <= |path| {
        assert s[j] == path[j] && s[j + 1] == path[j + 1] && s[j + 2] == path[j + 2];
        assert !MarkerAt(path, j);
      } else if j + 2 == |path| {
        assert s[j + 2] == '?';
      } else {
        assert s[j + 1] == '?';
      }
    }
    assert r == s[..|r|];
    assert MarkerAt(s, |r|);
    assert s[|path| + 1] == 'v' && s[|path| + 2] == '=';
    assert |path| + 3 <= |r| ==> MarkerAt(r, |path|);
    assert |r| == |path|;
  }

  /** A URL `origin/rest` starts with `origin/#` exactly when `rest` starts with `#`. */
  lemma FragmentPrefix(origin: string, rest: string)
    ensures origin + "/#" <= origin + "/" + rest <==> rest != "" && rest[0] == '#'
  {
    var url := origin + "/" + rest;
    var p := origin + "/#";
    assert p[|origin| + 1] == '#';
    if rest != "" {
      assert url[|origin| + 1] == rest[0];
      if rest[0] == '#' {
        assert url[..|p|] == p;
      }
    }
  }

  /** The fetch key of `origin/rest`, in terms of `rest` alone. */
  lemma {:induction false} FetchKeyOfTail(origin: string, rest: string)
    ensures FetchKey(origin, origin + "/" + rest) ==
              if (rest != "" && rest[0] == '#') || CutVersion(rest) == "" then "/" else CutVersion(rest)
  {
    TailAfterSlash(origin, rest);
    FragmentPrefix(origin, rest);
    assert |origin + "/" + rest| > |origin|;
  }

  /** A `?v=` version query does not change the fetch key:
      `asset.js?v=123` and `asset.js` map to the same key. */
  lemma {:induction false} VersionQueryIgnored(origin: string, path: string, v: string)
    requires !HasMarker(path)
    ensures FetchKey(origin, origin + "/" + path + "?v=" + v) == FetchKey(origin, origin + "/" + path)
    ensures FetchKey(origin, origin + "/" + path) == if path == "" || path[0] == '#' then "/" else path
  {
    var rest := path + "?v=" + v;
    assert origin + "/" + path + "?v=" + v == origin + "/" + rest;
    FetchKeyOfTail(origin, rest);
    FetchKeyOfTail(origin, path);
    FirstMarkerAtEnd(path, v);
    assert path != "" ==> rest[0] == path[0];
    assert rest[|path|] == '?';
  }

  /** The bare origin, the origin with a trailing slash, `origin/#fragment` and
      `origin/?v=...` all map to the entry document's key `/`. */
  lemma {:induction false} RootAliases(origin: string, fragment: string, v: string)
    ensures FetchKey(origin, origin) == "/"
    ensures FetchKey(origin, origin + "/") == "/"
    ensures FetchKey(origin, origin + "/#" + fragment) == "/"
    ensures FetchKey(origin, origin + "/?v=" + v) == "/"
  {
    assert origin + "/#" <= origin + "/#" + fragment;
    assert !HasMarker("") by { assert forall j :: !MarkerAt("", j); }
    VersionQueryIgnored(origin, "", v);
    assert origin + "/" + "" + "?v=" + v == origin + "/?v=" + v;
    assert origin + "/" + "" == origin + "/";
  }

  /** The two derivations disagree on versioned URLs: the fetch handler strips
      `?v=` but activation keeps it, so an entry stored under
      `origin/main.dart.js?v=1` is looked up by activation as `main.dart.js?v=1`. */
  lemma {:induction false} VersionedKeysDiverge(origin: string, path: string, v: string)
    requires path != "" && path[0] != '#' && !HasMarker(path)
    ensures FetchKey(origin, origin + "/" + path + "?v=" + v) == path
    ensures ActivationKey(origin, origin + "/" + path + "?v=" + v) == path + "?v=" + v
  {
    VersionQueryIgnored(origin, path, v);
    assert origin + "/" + path + "?v=" + v == origin + "/" + (path + "?v=" + v);
    TailAfterSlash(origin, path + "?v=" + v);
  }
}

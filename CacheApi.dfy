/** The one host operation whose semantics the worker depends on beyond plain
    lookups and writes: `Cache.addAll`, which fetches every request and stores
    the responses only if all of them succeed. */
module CacheApi {
  import opened Types

  /** The response to `url` can be stored by `addAll`: the fetch resolved and
      the response is ok (`addAll` rejects on any other status). */
  predicate Storable(net: Url -> NetOutcome, url: Url)
  {
    net(url).Delivered? && net(url).response.ok
  }

  /** The entries `cache.addAll(urls)` writes, or None when the batch rejects
      and nothing is written. */
  function AddAll(urls: seq<Url>, net: Url -> NetOutcome): (batch: Option<Store>)
    ensures batch.Some? <==> forall i :: 0 <= i < |urls| ==> Storable(net, urls[i])
    ensures batch.Some? ==> batch.value.Keys == set u | u in urls
    ensures batch.Some? ==> forall u :: u in batch.value ==> batch.value[u] == net(u).response
  {
    if urls == [] then Some(map[])
    else if !Storable(net, urls[0]) then None
    else
      match AddAll(urls[1..], net)
      case None => None
      case Some(rest) => Some(rest[urls[0] := net(urls[0]).response])
  }
}

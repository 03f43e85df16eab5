/** Values the service worker handles once the browser objects are abstracted:
    request URLs, responses, network outcomes and the three cache stores. */
module Types {

  datatype Option<+T> = None | Some(value: T)

  /** An absolute request URL, as `Request.url` gives it. */
  type Url = string

  /** The body of a response. `ManifestJson(t)` is what `JSON.stringify(t)` of a
      fingerprint table produces, and the only body whose `.json()` yields a table;
      `Payload` stands for any other body (an asset, or bytes that do not parse). */
  datatype Body = Payload(bytes: string) | ManifestJson(table: map<string, string>)

  /** A response as the Cache API stores it; `ok` is `Response.ok` (a 2xx status). */
  datatype Response = Response(ok: bool, body: Body)

  /** The reason a `fetch` promise rejects (the network could not be reached). */
  datatype NetError = NetError(reason: string)

  /** What one `fetch` of a URL does: resolve with a response, or reject. */
  datatype NetOutcome = Delivered(response: Response) | Rejected(error: NetError)

  /** One named cache: request URL to stored response. */
  type Store = map<Url, Response>

  /** A fingerprint table such as `RESOURCES`: asset key to content hash. */
  type Fingerprints = map<string, string>

  /** `table[key]` in JavaScript: `undefined` (None) when the key is absent. */
  function Lookup(table: Fingerprints, key: string): (r: Option<string>)
    ensures r.Some? <==> key in table
    ensures r.Some? ==> r.value == table[key]
  {
    if key in table then Some(table[key]) else None
  }

  /** `!!table[key]`: the key is present and its fingerprint is not the empty string. */
  predicate Truthy(table: Fingerprints, key: string)
  {
    key in table && table[key] != ""
  }
}

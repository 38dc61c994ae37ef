/**
 * The network and browser-location vocabulary shared by every hook:
 * URLs as a base plus an ordered list of query pairs (percent-encoding is
 * not modelled), requests as method, target and headers, and the settled
 * outcome of a `fetch(...).then(res => res.json())` chain.
 */
module Web {
  import opened Wrappers

  /** One `key=value` pair of a query string, before percent-encoding. */
  type Param = (string, string)

  /** A URL built with `new URL(base)` and `searchParams.append`. */
  datatype Url = Url(base: string, query: seq<Param>)

  datatype Method = Get | Post

  /** What `fetch` is called with: a template-literal string or a URL object. */
  datatype Target = Literal(text: string) | Built(url: Url)

  datatype Request = Request(verb: Method, target: Target, headers: seq<Param>)

  /** How a promise settles: with a value, or rejected with an error message. */
  datatype Settled<T> = Resolved(value: T) | Rejected(message: string)

  /** A parsed JSON response body: its `error` field and the rest of it. */
  datatype Body<T> = Body(errorField: Option<string>, rest: T)

  /** JavaScript truthiness of a `string | null`: absent and "" are falsy. */
  predicate Truthy(s: Option<string>)
    ensures Truthy(s) <==> s.Some? && |s.value| > 0
  {
    s.Some? && s.value != ""
  }

  /**
   * `URLSearchParams.get(key)`: the value of the FIRST pair whose key is
   * `key`, or null when no pair has that key.
   */
  function QueryGet(query: seq<Param>, key: string): (r: Option<string>)
    ensures r.None? <==> forall i :: 0 <= i < |query| ==> query[i].0 != key
    ensures r.Some? ==> exists i :: 0 <= i < |query| && query[i] == (key, r.value)
                                    && forall j :: 0 <= j < i ==> query[j].0 != key
  {
    if query == [] then None
    else if query[0].0 == key then Some(query[0].1)
    else
      QueryGet(query[1..], key)
  }

  /**
   * The failure a `.then(data => { if (data.error) throw new Error(data.error); ... })
   * .catch(err => ...)` chain reports: the rejection's message, or a truthy
   * `error` field of the body; none when the body is a success.
   */
  function FailureOf<T>(reply: Settled<Body<T>>): (m: Option<string>)
    ensures m.None? <==> reply.Resolved? && !Truthy(reply.value.errorField)
    ensures reply.Rejected? ==> m == Some(reply.message)
    ensures reply.Resolved? && m.Some? ==> reply.value.errorField == m
  {
    match reply
    case Rejected(msg) => Some(msg)
    case Resolved(body) => if Truthy(body.errorField) then body.errorField else None
  }
}

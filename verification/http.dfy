/**
 * Requests as the services hand them to the API client
 * (src/services/api.ts): a verb, a path, the query parameters in the order
 * they were appended to `URLSearchParams`, and an optional JSON body of
 * string fields.
 */
module Http {
  import opened Wrappers

  datatype Verb = Get | Post | Put | Delete

  type Params = seq<(string, string)>

  datatype Request = Request(verb: Verb, path: string, query: Params, body: Option<Params>)

  /** A request whose JSON body is a typed record rather than string fields. */
  datatype JsonRequest<B> = JsonRequest(verb: Verb, path: string, query: Params, body: B)

  /** The parameter names, in order. */
  function Keys(q: Params): (ks: seq<string>)
    ensures |ks| == |q| && forall k :: 0 <= k < |q| ==> ks[k] == q[k].0
  {
    seq(|q|, k requires 0 <= k < |q| => q[k].0)
  }

  /** `URLSearchParams.get`: the value of the first parameter with this name. */
  function Lookup(q: Params, key: string): (v: Option<string>)
    ensures v.None? <==> key !in Keys(q)
    ensures v.Some? ==> (key, v.value) in q
  {
    if |q| == 0 then None
    else if q[0].0 == key then Some(q[0].1)
    else
      assert Keys(q) == [q[0].0] + Keys(q[1..]);
      Lookup(q[1..], key)
  }
}

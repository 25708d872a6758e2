/** Option, for the values the source holds as `T | null` or `T | undefined`. */
module Wrappers {
  datatype Option<+T> = None | Some(value: T)
}

/**
 * The shapes every screen shares: what a request looks like on the wire,
 * how it can end, and where the router is.
 */
module Http {
  import opened Wrappers

  /**
   * How an awaited `apiClient` call ends. `HttpErr` is an error for which
   * `axios.isAxiosError` holds: `status` is `err.response?.status` (absent
   * when no response arrived) and `detail` is `err.response?.data?.detail`.
   * `OtherErr` is any other thrown value.
   */
  datatype Outcome<+T> =
    | Ok(data: T)
    | HttpErr(status: Option<int>, detail: Option<string>)
    | OtherErr

  datatype Method = Get | Post | Delete

  /** A JSON request body; a key whose value is `undefined` is absent. */
  type Body = map<string, string>

  /** One request as it leaves the client, after the request interceptor ran. */
  datatype Request = Request(verb: Method, url: string, data: Body, headers: map<string, string>)

  /** The router's current path and the `{ email }` navigation state, if any. */
  datatype Location = Location(path: string, email: Option<string>)

  /**
   * `err.response?.data?.detail || fallback`: the server's detail when it is
   * a non-empty string, the fallback otherwise. The banner text is therefore
   * never empty unless the fallback is.
   */
  function ErrorText(detail: Option<string>, fallback: string): (r: string)
    ensures r == fallback || (detail == Some(r) && r != "")
    ensures (detail.None? || detail == Some("")) ==> r == fallback
    ensures detail.Some? && detail.value != "" ==> r == detail.value
    ensures fallback != "" ==> r != ""
  {
    match detail
    case Some(d) => if d != "" then d else fallback
    case None => fallback
  }

  /** A JavaScript value of type `string | null | undefined` is truthy: present and non-empty. */
  predicate Truthy(v: Option<string>) {
    v.Some? && v.value != ""
  }

  /** `{ ...m, key: v }` where `v` may be `undefined`, as `JSON.stringify` sends it. */
  function WithField(m: Body, key: string, v: Option<string>): (r: Body)
    ensures v.Some? ==> key in r && r[key] == v.value
    ensures v.None? ==> key !in r
    ensures forall k :: k != key ==> (k in r <==> k in m)
    ensures forall k :: k != key && k in m ==> r[k] == m[k]
  {
    match v
    case Some(x) => m[key := x]
    case None => m - {key}
  }
}

/** What the client components see of a request: the URL they build from their filters and the
    result of `fetch`, which is a response or an exception. */
module ClientFetch {
  import opened Opt
  import opened Strings

  /** The result of `fetch` and of reading the body: a response with its status and its body
      as JSON of the expected shape (None when the body does not parse), or an exception,
      which is an AbortError when the five-second timeout fired. */
  datatype FetchResult<T> = Responded(status: int, json: Option<T>) | FetchFailed(aborted: bool)

  /** `res.ok`. */
  predicate IsOk(status: int) {
    200 <= status <= 299
  }

  const TimedOut := "Request timed out"

  /** `if (v && v.trim()) params.append(name, v.trim())`. */
  function AppendNonBlank(params: seq<(string, string)>, name: string, v: Option<string>): (r: seq<(string, string)>)
    ensures NonBlankTrimmed(v).None? ==> r == params
    ensures NonBlankTrimmed(v).Some? ==> r == params + [(name, NonBlankTrimmed(v).value)]
  {
    match NonBlankTrimmed(v)
    case None => params
    case Some(t) => params + [(name, t)]
  }

  /** `params.toString()`: `name=value` pairs joined by `&`. */
  function QueryString(params: seq<(string, string)>): (s: string)
    ensures params != [] ==> '=' in s
  {
    if params == [] then []
    else
      var pair := params[0].0 + "=" + params[0].1;
      assert pair[|params[0].0|] == '=';
      if |params| == 1 then pair else pair + "&" + QueryString(params[1..])
  }

  /** `${path}${query ? `?${query}` : ''}`. */
  function RequestUrl(path: string, params: seq<(string, string)>): (u: string)
    ensures params == [] ==> u == path
    ensures '?' !in path ==> ('?' in u <==> params != [])
  {
    if params == [] then path
    else
      var u := path + "?" + QueryString(params);
      assert u[|path|] == '?';
      u
  }
}

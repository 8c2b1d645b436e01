/** The error map that both authentication forms keep in React state. */
module ErrorMap {
  import opened Wrappers

  /** The value at key `k` of a JavaScript `Record<string, string>`, or
      `None` when the key is absent: the lookup the validators' frame
      contracts are written in. */
  function ErrorOf(errors: map<string, string>, k: string): (r: Option<string>)
    ensures r.Some? <==> k in errors
    ensures r.Some? ==> r.value == errors[k]
  {
    if k in errors then Some(errors[k]) else None
  }
}

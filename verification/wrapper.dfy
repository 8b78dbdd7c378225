/**
 The memoizing parameter wrapper that the template is executed against
 (`ssmWrapper` in main.go). One cache map serves both lookups: a single
 parameter is cached under its name, a path group under its path. The
 wrapper is an immutable value; each lookup returns its outcome together with
 the wrapper's next state.

 Besides the cache the state records every remote request the wrapper made,
 in order, with the answer it got. The program keeps no such record; it is
 here so that "no remote request on a hit" can be stated.
 */
module SsmWrapper {
  import opened Remote
  import opened ParamGroup

  /** A cached value: the string of a single lookup, or the name-to-value map
      of a path lookup. */
  datatype Entry = Str(value: string) | Group(params: map<string, string>)

  /** One remote request and the answer it received. */
  datatype Call =
    | GetParameter(name: string, value: Response<string>)
    | GetParametersByPath(path: string, params: Response<seq<Param>>)
  {
    /** The cache key the request was made for. */
    function Key(): string
    {
      match this
      case GetParameter(name, _) => name
      case GetParametersByPath(path, _) => path
    }

    predicate Succeeded()
    {
      match this
      case GetParameter(_, answer) => answer.Found?
      case GetParametersByPath(_, answer) => answer.Found?
    }

    /** What a successful request leaves in the cache. */
    function Cached(): Entry
      requires Succeeded()
    {
      match this
      case GetParameter(_, answer) => Str(answer.value)
      case GetParametersByPath(_, answer) => Group(Collect(answer.value))
    }
  }

  datatype Wrapper = Wrapper(cache: map<string, Entry>, log: seq<Call>)

  /** What a lookup hands back to the template: a value, the store's error,
      or the run-time panic of a type assertion on a cache entry of the other
      kind. */
  datatype Outcome<+T> = Ok(value: T) | Err(error: FetchError) | Panic

  datatype Step<+T> = Step(out: Outcome<T>, next: Wrapper)

  /** A freshly built wrapper: empty cache, no requests made yet. */
  function NewWrapper(): Wrapper
  {
    Wrapper(map[], [])
  }

  /** `Parameter(key)`. `resp` is what the store answers if it is asked. */
  function Parameter(w: Wrapper, key: string, resp: Response<string>): (r: Step<string>)
    // on a miss exactly one remote request is made, and it is for `key`
    ensures key !in w.cache ==> r.next.log == w.log + [GetParameter(key, resp)]
    // a hit answers from the cache and changes nothing
    ensures key in w.cache ==> r.next == w
    ensures key in w.cache && w.cache[key].Str? ==> r.out == Ok(w.cache[key].value)
    ensures r.out.Panic? <==> key in w.cache && w.cache[key].Group?
    // a miss answers what the store answered
    ensures key !in w.cache && resp.Found? ==> r.out == Ok(resp.value)
    ensures r.out.Err? <==> key !in w.cache && resp.Failed?
    ensures r.out.Err? ==> r.out.error == resp.error
    // only the entry for `key` can change; a value handed out is the cached one
    ensures r.next.cache - {key} == w.cache - {key}
    ensures r.out.Ok? ==> key in r.next.cache && r.next.cache[key] == Str(r.out.value)
    ensures !r.out.Ok? ==> r.next.cache == w.cache
  {
    if key in w.cache then
      match w.cache[key]
      case Str(s) => Step(Ok(s), w)
      case Group(_) => Step(Panic, w)
    else
      var asked := w.(log := w.log + [GetParameter(key, resp)]);
      match resp
      case Failed(e) => Step(Err(e), asked)
      case Found(v) => Step(Ok(v), asked.(cache := w.cache[key := Str(v)]))
  }

  /** `ParametersByPath(path)`. `resp` is the parameter list the store
      answers if it is asked. */
  function ParametersByPath(w: Wrapper, path: string, resp: Response<seq<Param>>)
    : (r: Step<map<string, string>>)
    // on a miss exactly one remote request is made, and it is for `path`
    ensures path !in w.cache ==> r.next.log == w.log + [GetParametersByPath(path, resp)]
    // a hit answers from the cache and changes nothing
    ensures path in w.cache ==> r.next == w
    ensures path in w.cache && w.cache[path].Group? ==> r.out == Ok(w.cache[path].params)
    ensures r.out.Panic? <==> path in w.cache && w.cache[path].Str?
    // a miss answers the map the returned list describes, even an empty one
    ensures path !in w.cache && resp.Found? ==> r.out.Ok? && GroupOf(resp.value, r.out.value)
    ensures r.out.Err? <==> path !in w.cache && resp.Failed?
    ensures r.out.Err? ==> r.out.error == resp.error
    // only the entry for `path` can change; a map handed out is the cached one
    ensures r.next.cache - {path} == w.cache - {path}
    ensures r.out.Ok? ==> path in r.next.cache && r.next.cache[path] == Group(r.out.value)
    ensures !r.out.Ok? ==> r.next.cache == w.cache
  {
    if path in w.cache then
      match w.cache[path]
      case Group(m) => Step(Ok(m), w)
      case Str(_) => Step(Panic, w)
    else
      var asked := w.(log := w.log + [GetParametersByPath(path, resp)]);
      match resp
      case Failed(e) => Step(Err(e), asked)
      case Found(ps) =>
        CollectIsGroupOf(ps);
        var m := Collect(ps);
        Step(Ok(m), asked.(cache := w.cache[path := Group(m)]))
  }

  /** Two lookups of one key, the first successful: one remote request in
      all, and the second answers what the first did. */
  lemma ParameterTwice(w: Wrapper, key: string, resp1: Response<string>, resp2: Response<string>)
    requires Parameter(w, key, resp1).out.Ok?
    ensures var s1 := Parameter(w, key, resp1);
            var s2 := Parameter(s1.next, key, resp2);
            && s2.out == s1.out
            && s2.next == s1.next
            && |s2.next.log| <= |w.log| + 1
  {
  }

  /** A failed lookup caches nothing, so the next lookup of the key asks the
      store again. */
  lemma ParameterRetriesAfterFailure(w: Wrapper, key: string, e: FetchError, resp2: Response<string>)
    requires key !in w.cache
    ensures var s1 := Parameter(w, key, Failed(e));
            var s2 := Parameter(s1.next, key, resp2);
            && s1.out == Err(e)
            && s2.next.log == w.log + [GetParameter(key, Failed(e)), GetParameter(key, resp2)]
  {
  }

  /** Two lookups of one path, the first successful: one remote request in
      all, and the second answers the same map. */
  lemma PathTwice(w: Wrapper, path: string, resp1: Response<seq<Param>>, resp2: Response<seq<Param>>)
    requires ParametersByPath(w, path, resp1).out.Ok?
    ensures var s1 := ParametersByPath(w, path, resp1);
            var s2 := ParametersByPath(s1.next, path, resp2);
            && s2.out == s1.out
            && s2.next == s1.next
            && |s2.next.log| <= |w.log| + 1
  {
  }

  /** A path with no parameters is remembered as an empty map: asking again
      makes no remote request and again yields the empty map. */
  lemma EmptyPathIsCached(w: Wrapper, path: string, resp2: Response<seq<Param>>)
    requires path !in w.cache
    ensures var s1 := ParametersByPath(w, path, Found([]));
            var s2 := ParametersByPath(s1.next, path, resp2);
            && s1.out == Ok(map[])
            && s2.out == Ok(map[])
            && s2.next.log == w.log + [GetParametersByPath(path, Found([]))]
  {
    var s1 := ParametersByPath(w, path, Found([]));
    GroupOfIsUnique([], s1.out.value, map[]);
  }

  /** A failed path lookup caches nothing, so the next lookup asks again. */
  lemma PathRetriesAfterFailure(w: Wrapper, path: string, e: FetchError, resp2: Response<seq<Param>>)
    requires path !in w.cache
    ensures var s1 := ParametersByPath(w, path, Failed(e));
            var s2 := ParametersByPath(s1.next, path, resp2);
            && s1.out == Err(e)
            && s2.next.log == w.log + [GetParametersByPath(path, Failed(e)), GetParametersByPath(path, resp2)]
  {
  }

  /** The two lookups share one cache: a path lookup under a name a single
      lookup has filled fails its type assertion. */
  lemma PathAfterParameterPanics(w: Wrapper, s: string, resp1: Response<string>, resp2: Response<seq<Param>>)
    requires Parameter(w, s, resp1).out.Ok?
    ensures var s1 := Parameter(w, s, resp1);
            ParametersByPath(s1.next, s, resp2) == Step(Panic, s1.next)
  {
  }

  /** And the other way round. */
  lemma ParameterAfterPathPanics(w: Wrapper, s: string, resp1: Response<seq<Param>>, resp2: Response<string>)
    requires ParametersByPath(w, s, resp1).out.Ok?
    ensures var s1 := ParametersByPath(w, s, resp1);
            Parameter(s1.next, s, resp2) == Step(Panic, s1.next)
  {
  }
}

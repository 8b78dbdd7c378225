# ssm-template: the memoizing parameter cache

`ssm-template` renders a text template whose expressions look up values in the
AWS Systems Manager parameter store while the template runs. The template is
executed against an `ssmWrapper`, which offers two lookups:

- `Parameter(key)` fetches one parameter.
- `ParametersByPath(path)` fetches every parameter under a path prefix as a
  name-to-value map.

Both lookups memoize in one cache map that belongs to the wrapper. This
project models that wrapper and proves what its cache promises:

- a remote request is made only on a miss;
- a failure is never cached, so the next lookup asks again;
- a lookup touches only its own cache entry;
- once a request for a key has succeeded, no further request for that key is
  made for the life of the wrapper.

Modules:

- `Remote` (`remote.dfy`): the store's answers. A lookup that misses is
  handed the response the store would give to that one request, either
  `Found(value)` or `Failed(error)`. This covers any store behaviour,
  including one whose answers change between requests.
- `ParamGroup` (`group.dfy`): building the name-to-value map from the
  returned parameter list. `Collect` is the function form, `BuildGroup` is
  the loop as written, and `GroupOf` is the declarative description: the keys
  are exactly the names, and each name takes the value of its last occurrence.
- `SsmWrapper` (`wrapper.dfy`): the cache entry `Entry = Str | Group`, the
  wrapper state, and the two lookups. The state is an immutable value, and
  each lookup returns its outcome with the next state. The state also carries
  a log of the remote requests made and the answers received. The program has
  no such log; it exists so that "no request on a hit" can be stated.
- `Memo` (`memo.dfy`): a render pass as a sequence of lookups against a fresh
  wrapper (`NewWrapper`, the empty cache made at main.go:34), and the
  invariant `Valid` that every lookup keeps. `Valid` says two things. First,
  the cache is exactly what replaying the successful requests of the log
  builds. Second, no key is requested again after a request for it has
  succeeded. `Run` lets lookups continue after one that failed or panicked,
  whereas in the program template execution stops at the first lookup that
  returns an error (main.go:103, 139-141). The promises proved over every
  `Run` therefore hold in particular for the shorter runs the program makes.

The two lookup kinds share one cache, as in the program: a string and a map
can sit under the same key. A lookup that finds an entry of the other kind
fails the program's type assertion and panics. The model returns this as the
distinct outcome `Panic`, with no precondition excluding it. The program
keeps one map, so a string and a map cached under the same name collide, and
the later lookup of the other kind panics. The model keeps that one map.

## Model

| member | source | states |
|---|---|---|
| `SsmWrapper.Parameter` | main.go:37-55 | A remote request for `key` is made exactly when `key` is not cached. A cached string is returned with the state unchanged. A cached map panics. On a miss, the store's value is returned and cached, or the store's error is returned and nothing is cached. Only the entry for `key` can change, and a returned value is the one now cached. |
| `SsmWrapper.ParametersByPath` | main.go:57-81 | A remote request for `path` is made exactly when `path` is not cached. A cached map is returned with the state unchanged. A cached string panics. On a miss, the map described by the returned list is returned and cached, even when it is empty; on failure the error is returned and nothing is cached. Only the entry for `path` can change. |
| `ParamGroup.BuildGroup` | main.go:72-76 | The map the loop builds has exactly the returned names as keys. Each name maps to the value of its last occurrence in the list. The result equals the `Collect` map the wrapper caches. |
| `ParamGroup.CollectIsGroupOf` | main.go:72-76 | Assigning the parameters one after another gives exactly the names as keys, and a repeated name keeps the later value. |
| `ParamGroup.GroupOfIsUnique` | main.go:72-76 | At most one map fits that description, so the result of a path lookup is fully determined by the returned list. |
| `SsmWrapper.ParameterTwice` | main.go:38-54 | Two lookups of one key, the first successful, give identical results. The second leaves the state unchanged, and the pair makes at most one remote request in all. |
| `SsmWrapper.ParameterRetriesAfterFailure` | main.go:47-50 | After a failed fetch of a key, the next lookup of that key makes a new remote request. |
| `SsmWrapper.PathTwice` | main.go:58-80 | Two lookups of one path, the first successful, give the same map. The second leaves the state unchanged, and the pair makes at most one remote request in all. |
| `SsmWrapper.EmptyPathIsCached` | main.go:72-80 | A path with no parameters yields the empty map and is cached. A second lookup makes no request and again yields the empty map. |
| `SsmWrapper.PathRetriesAfterFailure` | main.go:67-70 | After a failed path fetch, the next lookup of that path makes a new remote request. |
| `SsmWrapper.PathAfterParameterPanics` | main.go:52-59 | After a successful single lookup of `s`, a path lookup of `s` fails the type assertion and changes nothing. |
| `SsmWrapper.ParameterAfterPathPanics` | main.go:38-39 | After a successful path lookup of `s` (the map cached at main.go:78), a single lookup of `s` fails the type assertion and changes nothing. |
| `Memo.ApplyKeepsValid` | main.go:37-81 | Either lookup keeps `Valid`. The cache stays exactly the replay of the successful requests, and no key is requested after a successful request for it. |
| `Memo.RunKeepsValid` | main.go:18-21 | Every sequence of lookups keeps `Valid`, whatever the store answers. |
| `Memo.RenderPassFetchesOnce` | main.go:37-81 | From a fresh wrapper, after any sequence of lookups, every cached entry is what a successful request for that key returned. No key is requested again once a request for it has succeeded. |
| `Memo.ReplayedWasFetched` | main.go:47-52 | An entry in the replayed cache comes from a successful request for its key and holds what that request returned. Failures never reach the cache. |
| `Memo.ReplayedIsFetched` | main.go:52-78 | When no key is requested after a success, the cache entry of a successfully fetched key is exactly what that request returned. |
| `Memo.MemoizedParameter` | main.go:38-40 | In a valid state, once a single lookup of a key has succeeded, every later lookup of that key returns the fetched value. It makes no request and changes nothing, whatever the store would now answer. |
| `Memo.MemoizedPath` | main.go:58-60 | In a valid state, once a path lookup has succeeded, every later lookup of that path returns the map built from the fetched list. It makes no request and changes nothing. |
| `Memo.RunOnlyAsksForTargets` | main.go:42-47 | A sequence of lookups only extends the request log, by at most one request per lookup. Every new request is for a key or path that was looked up, so a lookup never triggers a request for another key. |

## Left out

- `newSsmWrapper` (main.go:23-35): session and region set-up through the AWS SDK. Only the empty cache it creates is modelled, as `SsmWrapper.NewWrapper`.
- The SDK calls `GetParameter` and `GetParametersByPath`, including decryption: each is replaced by the response it would return. A nil `Parameter` or `Value` pointer in a successful SDK answer is not modelled.
- Pagination: the program reads only the first page of a path query (main.go:67-76). The model's path response stands for that first page.
- Reading the template from standard input or from the argument, and `strings.TrimSpace` (main.go:83-99, 116-127): operating-system I/O.
- Template parsing and execution, buffering, and copying to standard output (main.go:101-107, 129-144): a foreign library and I/O. How the template engine reports a panic raised inside a lookup is not modelled either; the model stops at the `Panic` outcome.
- `log.Fatal` exits and flag parsing: process plumbing.
- Concurrency: the program has none.
- Map aliasing: in the program the map a path lookup returns is the very map object held in the cache (main.go:58-59, 78-80), so a caller that wrote into it would change the cache and every later hit. The model's maps are values; it assumes callers never mutate a returned map, which holds for the program's one caller, the template engine, which does not assign into maps.
- `SsmWrapper.ParameterRetriesAfterFailure` and `SsmWrapper.PathRetriesAfterFailure` state the wrapper's own behaviour on a second lookup after a failure; within one render pass the program never reaches that second lookup, because execution stops at the first error.
- The request log is ordinary state here. The program keeps no log; it is only there to state what the wrapper asked the store.

/**
 One render pass: the template engine makes a sequence of lookups against one
 fresh wrapper. Over any such sequence the wrapper keeps two promises: its
 cache holds exactly what successful remote requests returned (failures leave
 no trace in it), and once a request for a key has succeeded no further
 request for that key is ever made.
 */
module Memo {
  import opened Remote
  import opened ParamGroup
  import opened SsmWrapper

  /** One lookup made by the template, with the answer the store would give. */
  datatype Request =
    | ByKey(key: string, keyResp: Response<string>)
    | ByPath(path: string, pathResp: Response<seq<Param>>)
  {
    function Target(): string
    {
      match this
      case ByKey(key, _) => key
      case ByPath(path, _) => path
    }
  }

  function Apply(w: Wrapper, req: Request): Wrapper
  {
    match req
    case ByKey(key, resp) => Parameter(w, key, resp).next
    case ByPath(path, resp) => ParametersByPath(w, path, resp).next
  }

  /** The wrapper after the lookups `reqs`, made in order. */
  function Run(w: Wrapper, reqs: seq<Request>): Wrapper
    decreases |reqs|
  {
    if |reqs| == 0 then w else Run(Apply(w, reqs[0]), reqs[1..])
  }

  /** The cache that replaying the successful requests of `log` would build. */
  function Replay(log: seq<Call>): map<string, Entry>
  {
    if |log| == 0 then map[]
    else
      var before := Replay(log[..|log| - 1]);
      var last := log[|log| - 1];
      if last.Succeeded() then before[last.Key() := last.Cached()] else before
  }

  /** No request is made for a key after a request for it has succeeded. */
  ghost predicate FetchedOnce(log: seq<Call>)
  {
    forall i, j :: 0 <= i < j < |log| && log[i].Succeeded() ==> log[j].Key() != log[i].Key()
  }

  ghost predicate Valid(w: Wrapper)
  {
    && w.cache == Replay(w.log)
    && FetchedOnce(w.log)
  }

  /** Every key that was fetched successfully is in the replayed cache. */
  lemma {:induction false} SucceededIsReplayed(log: seq<Call>, i: int)
    requires 0 <= i < |log| && log[i].Succeeded()
    ensures log[i].Key() in Replay(log)
  {
    var init := log[..|log| - 1];
    if i < |log| - 1 {
      assert init[i] == log[i];
      SucceededIsReplayed(init, i);
    }
  }

  /** Every cached entry is what some successful request returned. */
  lemma {:induction false} ReplayedWasFetched(log: seq<Call>, k: string)
    requires k in Replay(log)
    ensures exists i :: 0 <= i < |log| && log[i].Succeeded() && log[i].Key() == k
                        && log[i].Cached() == Replay(log)[k]
  {
    var init, last := log[..|log| - 1], log[|log| - 1];
    if last.Succeeded() && last.Key() == k {
      assert log[|log| - 1] == last;
    } else {
      ReplayedWasFetched(init, k);
      var i :| 0 <= i < |init| && init[i].Succeeded() && init[i].Key() == k
               && init[i].Cached() == Replay(init)[k];
      assert log[i] == init[i];
    }
  }

  lemma ReplaySnoc(log: seq<Call>, c: Call)
    ensures Replay(log + [c]) == if c.Succeeded() then Replay(log)[c.Key() := c.Cached()] else Replay(log)
  {
  }

  /** A request for a key the valid cache lacks keeps the log valid. */
  lemma FetchOnMissKeepsOnce(w: Wrapper, c: Call)
    requires Valid(w) && c.Key() !in w.cache
    ensures FetchedOnce(w.log + [c])
  {
    var log := w.log + [c];
    forall i, j | 0 <= i < j < |log| && log[i].Succeeded() ensures log[j].Key() != log[i].Key() {
      if j == |w.log| {
        assert log[i] == w.log[i];
        SucceededIsReplayed(w.log, i);
      }
    }
  }

  /** Every lookup keeps the wrapper valid. */
  lemma ApplyKeepsValid(w: Wrapper, req: Request)
    requires Valid(w)
    ensures Valid(Apply(w, req))
  {
    var k := req.Target();
    if k !in w.cache {
      var c := match req
        case ByKey(key, resp) => GetParameter(key, resp)
        case ByPath(path, resp) => GetParametersByPath(path, resp);
      assert Apply(w, req).log == w.log + [c];
      ReplaySnoc(w.log, c);
      FetchOnMissKeepsOnce(w, c);
    }
  }

  /** Any sequence of lookups keeps the wrapper valid. */
  lemma {:induction false} RunKeepsValid(w: Wrapper, reqs: seq<Request>)
    requires Valid(w)
    ensures Valid(Run(w, reqs))
    decreases |reqs|
  {
    if |reqs| > 0 {
      ApplyKeepsValid(w, reqs[0]);
      RunKeepsValid(Apply(w, reqs[0]), reqs[1..]);
    }
  }

  /** In a log where no key is fetched after a success, the replayed entry of
      a successfully fetched key is what that request returned. */
  lemma {:induction false} ReplayedIsFetched(log: seq<Call>, i: int)
    requires FetchedOnce(log)
    requires 0 <= i < |log| && log[i].Succeeded()
    ensures log[i].Key() in Replay(log) && Replay(log)[log[i].Key()] == log[i].Cached()
  {
    var init := log[..|log| - 1];
    if i < |log| - 1 {
      assert init[i] == log[i];
      assert FetchedOnce(init) by {
        forall a, b | 0 <= a < b < |init| && init[a].Succeeded() ensures init[b].Key() != init[a].Key() {
          assert init[a] == log[a] && init[b] == log[b];
        }
      }
      ReplayedIsFetched(init, i);
    }
  }

  /** Once a single lookup of a key has succeeded, every later lookup of the
      key answers the fetched value, makes no request and changes nothing,
      whatever the store would now answer. */
  lemma MemoizedParameter(w: Wrapper, i: int, resp: Response<string>)
    requires Valid(w)
    requires 0 <= i < |w.log| && w.log[i].GetParameter? && w.log[i].value.Found?
    ensures Parameter(w, w.log[i].name, resp) == Step(Ok(w.log[i].value.value), w)
  {
    ReplayedIsFetched(w.log, i);
  }

  /** Once a path lookup has succeeded, every later lookup of the path
      answers the map built from the fetched list, makes no request and
      changes nothing. */
  lemma MemoizedPath(w: Wrapper, i: int, resp: Response<seq<Param>>)
    requires Valid(w)
    requires 0 <= i < |w.log| && w.log[i].GetParametersByPath? && w.log[i].params.Found?
    ensures ParametersByPath(w, w.log[i].path, resp) == Step(Ok(Collect(w.log[i].params.value)), w)
  {
    ReplayedIsFetched(w.log, i);
  }

  /** The keys a sequence of lookups asks for. */
  function Targets(reqs: seq<Request>): set<string>
  {
    set i | 0 <= i < |reqs| :: reqs[i].Target()
  }

  /** Lookups only extend the log, by at most one request each, and only with
      requests for keys that were looked up. */
  lemma {:induction false} RunOnlyAsksForTargets(w: Wrapper, reqs: seq<Request>)
    ensures var w' := Run(w, reqs);
            && w.log <= w'.log
            && |w'.log| <= |w.log| + |reqs|
            && forall i :: |w.log| <= i < |w'.log| ==> w'.log[i].Key() in Targets(reqs)
    decreases |reqs|
  {
    if |reqs| > 0 {
      var w1 := Apply(w, reqs[0]);
      RunOnlyAsksForTargets(w1, reqs[1..]);
      var w' := Run(w, reqs);
      assert w' == Run(w1, reqs[1..]);
      forall i | |w.log| <= i < |w'.log| ensures w'.log[i].Key() in Targets(reqs) {
        if i >= |w1.log| {
          var j :| 0 <= j < |reqs[1..]| && reqs[1..][j].Target() == w'.log[i].Key();
          assert reqs[j + 1] == reqs[1..][j];
        } else {
          assert w'.log[i] == w1.log[i];
          assert w1.log[i].Key() == reqs[0].Target();
        }
      }
    }
  }

  /** A render pass: starting from a fresh wrapper, whatever the lookups and
      whatever the store answers, every cached entry came from a successful
      request, the cache holds what those requests returned, and no key is
      requested again once a request for it has succeeded. */
  lemma RenderPassFetchesOnce(reqs: seq<Request>)
    ensures var w := Run(NewWrapper(), reqs);
            && w.cache == Replay(w.log)
            && FetchedOnce(w.log)
            && forall k :: k in w.cache ==>
                 exists i :: 0 <= i < |w.log| && w.log[i].Succeeded() && w.log[i].Key() == k
                             && w.log[i].Cached() == w.cache[k]
  {
    var w := Run(NewWrapper(), reqs);
    RunKeepsValid(NewWrapper(), reqs);
    forall k | k in w.cache
      ensures exists i :: 0 <= i < |w.log| && w.log[i].Succeeded() && w.log[i].Key() == k
                          && w.log[i].Cached() == w.cache[k]
    {
      ReplayedWasFetched(w.log, k);
    }
  }
}

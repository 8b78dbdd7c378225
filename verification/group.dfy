/**
 Turning the parameter list of a path query into a name-to-value map
 (`ParametersByPath`, the loop over `output.Parameters`). A name that occurs
 more than once takes the value of its last occurrence, as successive map
 assignments do.
 */
module ParamGroup {
  import opened Remote

  /** The names that occur in a parameter list. */
  function Names(ps: seq<Param>): set<string>
  {
    set i | 0 <= i < |ps| :: ps[i].name
  }

  /** `ps[i]` is the last parameter of the list carrying its name. */
  ghost predicate LastOccurrence(ps: seq<Param>, i: int)
  {
    && 0 <= i < |ps|
    && forall j :: i < j < |ps| ==> ps[j].name != ps[i].name
  }

  /** `m` is the map the list describes: exactly its names, each bound to the
      value of its last occurrence. */
  ghost predicate GroupOf(ps: seq<Param>, m: map<string, string>)
  {
    && m.Keys == Names(ps)
    && forall i :: LastOccurrence(ps, i) ==> m[ps[i].name] == ps[i].value
  }

  /** The map built by assigning the parameters one after the other, the last
      assignment applied outermost. */
  function Collect(ps: seq<Param>): map<string, string>
  {
    if |ps| == 0 then map[]
    else Collect(ps[..|ps| - 1])[ps[|ps| - 1].name := ps[|ps| - 1].value]
  }

  lemma NamesOfSnoc(ps: seq<Param>)
    requires |ps| > 0
    ensures Names(ps) == Names(ps[..|ps| - 1]) + {ps[|ps| - 1].name}
  {
  }

  /** Successive assignment builds exactly the map the list describes. */
  lemma {:induction false} CollectIsGroupOf(ps: seq<Param>)
    ensures GroupOf(ps, Collect(ps))
  {
    if |ps| > 0 {
      var init, last := ps[..|ps| - 1], ps[|ps| - 1];
      CollectIsGroupOf(init);
      NamesOfSnoc(ps);
      forall i | LastOccurrence(ps, i) ensures Collect(ps)[ps[i].name] == ps[i].value {
        if i < |ps| - 1 {
          assert ps[i].name != last.name;
          assert init[i] == ps[i];
          assert LastOccurrence(init, i);
        }
      }
    }
  }

  /** Every name of a non-empty list has a last occurrence. */
  lemma {:induction false} LastOccurrenceExists(ps: seq<Param>, n: string)
    requires n in Names(ps)
    ensures exists i :: LastOccurrence(ps, i) && ps[i].name == n
  {
    var last := |ps| - 1;
    if ps[last].name == n {
      assert LastOccurrence(ps, last);
    } else {
      var init := ps[..last];
      NamesOfSnoc(ps);
      LastOccurrenceExists(init, n);
      var i :| LastOccurrence(init, i) && init[i].name == n;
      assert ps[i] == init[i];
      assert LastOccurrence(ps, i);
    }
  }

  /** The description pins the map down: at most one map fits a list. */
  lemma GroupOfIsUnique(ps: seq<Param>, m1: map<string, string>, m2: map<string, string>)
    requires GroupOf(ps, m1) && GroupOf(ps, m2)
    ensures m1 == m2
  {
    forall n | n in m1 ensures m1[n] == m2[n] {
      LastOccurrenceExists(ps, n);
    }
  }

  /** The loop over the returned parameters: start from an empty map and
      assign each name its value in list order. */
  method BuildGroup(ps: seq<Param>) returns (m: map<string, string>)
    ensures m == Collect(ps)
    ensures GroupOf(ps, m)
  {
    m := map[];
    var i := 0;
    while i < |ps|
      invariant 0 <= i <= |ps|
      invariant m == Collect(ps[..i])
    {
      assert ps[..i + 1][..i] == ps[..i];
      m := m[ps[i].name := ps[i].value];
      i := i + 1;
    }
    assert ps[..|ps|] == ps;
    CollectIsGroupOf(ps);
  }
}

/** A URL's query as the ordered list of name/value pairs that `URLSearchParams`
    keeps, and its `set` operation as section 6.2 of the WHATWG URL Standard
    describes it. */
module SearchParams {

  type Param = (string, string)

  /** The pairs in the order they appear in the query string. */
  type Query = seq<Param>

  /** Every name the query mentions. */
  function Names(q: Query): set<string>
  {
    set i | 0 <= i < |q| :: q[i].0
  }

  /** The pairs of `q` named `name`, in order. */
  function Only(q: Query, name: string): (r: Query)
    ensures forall i :: 0 <= i < |r| ==> r[i].0 == name
  {
    if q == [] then []
    else if q[0].0 == name then [q[0]] + Only(q[1..], name)
    else Only(q[1..], name)
  }

  /** The pairs of `q` whose names are not in `names`, in order. */
  function Without(q: Query, names: set<string>): (r: Query)
    ensures forall i :: 0 <= i < |r| ==> r[i].0 !in names
    ensures |r| <= |q|
  {
    if q == [] then []
    else if q[0].0 in names then Without(q[1..], names)
    else [q[0]] + Without(q[1..], names)
  }

  /** `searchParams.set(name, value)`: the first pair named `name` takes the new
      value and every later pair of that name is removed; without such a pair
      the new pair goes at the end, so the query grows by at most one pair. */
  function SetParam(q: Query, name: string, value: string): (r: Query)
    ensures |r| <= |q| + 1
  {
    if q == [] then [(name, value)]
    else if q[0].0 == name then [(name, value)] + Without(q[1..], {name})
    else [q[0]] + SetParam(q[1..], name, value)
  }

  lemma {:induction false} OnlyOfWithout(q: Query, names: set<string>, name: string)
    requires name in names
    ensures Only(Without(q, names), name) == []
  {
    if q != [] {
      OnlyOfWithout(q[1..], names, name);
    }
  }

  lemma {:induction false} OnlyOfWithoutOther(q: Query, names: set<string>, name: string)
    requires name !in names
    ensures Only(Without(q, names), name) == Only(q, name)
  {
    if q != [] {
      OnlyOfWithoutOther(q[1..], names, name);
    }
  }

  lemma {:induction false} WithoutWithout(q: Query, a: set<string>, b: set<string>)
    requires a <= b
    ensures Without(Without(q, a), b) == Without(q, b)
  {
    if q != [] {
      WithoutWithout(q[1..], a, b);
    }
  }

  /** `Without` only drops pairs. */
  lemma {:induction false} WithoutKeeps(q: Query, names: set<string>)
    ensures forall x :: x in Without(q, names) ==> x in q
  {
    if q != [] {
      WithoutKeeps(q[1..], names);
    }
  }

  /** `set` invents no pair besides the one set: every other pair was already in
      the query. */
  lemma {:induction false} SetParamInventsNothing(q: Query, name: string, value: string)
    ensures forall x :: x in SetParam(q, name, value) ==> x == (name, value) || x in q
  {
    if q != [] {
      if q[0].0 == name {
        WithoutKeeps(q[1..], {name});
      } else {
        SetParamInventsNothing(q[1..], name, value);
      }
    }
  }

  /** After `set`, the name occurs exactly once, with the value just set. */
  lemma {:induction false} SetParamNamed(q: Query, name: string, value: string)
    ensures Only(SetParam(q, name, value), name) == [(name, value)]
  {
    if q != [] {
      if q[0].0 == name {
        OnlyOfWithout(q[1..], {name}, name);
      } else {
        SetParamNamed(q[1..], name, value);
      }
    }
  }

  /** `set` leaves the pairs of every other name as they were, in order. */
  lemma {:induction false} SetParamOthers(q: Query, name: string, value: string, other: string)
    requires other != name
    ensures Only(SetParam(q, name, value), other) == Only(q, other)
  {
    if q != [] {
      if q[0].0 == name {
        OnlyOfWithoutOther(q[1..], {name}, other);
      } else {
        SetParamOthers(q[1..], name, value, other);
      }
    }
  }

  /** Seen past a set of names that includes the one set, `set` changes nothing:
      the other pairs keep their relative order as well as their values. */
  lemma {:induction false} SetParamWithout(q: Query, name: string, value: string, names: set<string>)
    requires name in names
    ensures Without(SetParam(q, name, value), names) == Without(q, names)
  {
    if q != [] {
      if q[0].0 == name {
        WithoutWithout(q[1..], {name}, names);
      } else {
        SetParamWithout(q[1..], name, value, names);
      }
    }
  }

  /** `set` of a name the query lacks appends the pair, as the standard says. */
  lemma {:induction false} SetParamAbsent(q: Query, name: string, value: string)
    requires forall j :: 0 <= j < |q| ==> q[j].0 != name
    ensures SetParam(q, name, value) == q + [(name, value)]
  {
    if q != [] {
      SetParamAbsent(q[1..], name, value);
      assert q == [q[0]] + q[1..];
    }
  }

  /** `set` of a name whose first pair sits at `i` is the standard's algorithm:
      that pair takes the value where it stands and the later pairs of the name
      are dropped. */
  lemma {:induction false} SetParamAtFirst(q: Query, name: string, value: string, i: nat)
    requires i < |q| && q[i].0 == name
    requires forall j :: 0 <= j < i ==> q[j].0 != name
    ensures SetParam(q, name, value) == q[..i] + [(name, value)] + Without(q[i + 1..], {name})
  {
    if i > 0 {
      SetParamAtFirst(q[1..], name, value, i - 1);
      assert q[1..][..i - 1] == q[1..i] && q[1..][i..] == q[i + 1..];
      assert q[..i] == [q[0]] + q[1..i];
    }
  }

  /** The successive `set` calls `ps[0]`, `ps[1]`, ... applied to `q`: each call
      adds at most one pair. */
  function SetAll(q: Query, ps: seq<Param>): (r: Query)
    ensures |r| <= |q| + |ps|
    decreases |ps|
  {
    if ps == [] then q
    else SetParam(SetAll(q, ps[..|ps| - 1]), ps[|ps| - 1].0, ps[|ps| - 1].1)
  }

  /** The names of `ps` are pairwise different. */
  predicate DistinctNames(ps: seq<Param>) {
    forall i, j :: 0 <= i < j < |ps| ==> ps[i].0 != ps[j].0
  }

  /** After successive `set` calls, every pair comes from the query or from the
      calls. */
  lemma {:induction false} SetAllInventsNothing(q: Query, ps: seq<Param>)
    ensures forall x :: x in SetAll(q, ps) ==> x in q || x in ps
    decreases |ps|
  {
    if ps != [] {
      var init := ps[..|ps| - 1];
      var last := ps[|ps| - 1];
      assert SetAll(q, ps) == SetParam(SetAll(q, init), last.0, last.1);
      SetAllInventsNothing(q, init);
      SetParamInventsNothing(SetAll(q, init), last.0, last.1);
      assert forall x :: x in init ==> x in ps;
    }
  }

  /** Pairs whose name is never set come through the calls untouched. */
  lemma {:induction false} SetAllUntouched(q: Query, ps: seq<Param>, name: string)
    requires name !in Names(ps)
    ensures Only(SetAll(q, ps), name) == Only(q, name)
    decreases |ps|
  {
    if ps != [] {
      var init := ps[..|ps| - 1];
      assert Names(init) <= Names(ps);
      SetAllUntouched(q, init, name);
      SetParamOthers(SetAll(q, init), ps[|ps| - 1].0, ps[|ps| - 1].1, name);
    }
  }

  /** After the calls, each name set occurs exactly once, carrying the value it
      was set to (the names being different, no later call overwrites it). */
  lemma {:induction false} SetAllAssigned(q: Query, ps: seq<Param>, k: nat)
    requires DistinctNames(ps) && k < |ps|
    ensures Only(SetAll(q, ps), ps[k].0) == [ps[k]]
    decreases |ps|
  {
    var init := ps[..|ps| - 1];
    var last := ps[|ps| - 1];
    if k == |ps| - 1 {
      SetParamNamed(SetAll(q, init), last.0, last.1);
    } else {
      assert init[k] == ps[k];
      SetAllAssigned(q, init, k);
      SetParamOthers(SetAll(q, init), last.0, last.1, ps[k].0);
    }
  }

  /** Seen past the names set, the calls change nothing: every other pair keeps
      its value and its place relative to the other untouched pairs. */
  lemma {:induction false} SetAllWithout(q: Query, ps: seq<Param>, names: set<string>)
    requires Names(ps) <= names
    ensures Without(SetAll(q, ps), names) == Without(q, names)
    decreases |ps|
  {
    if ps != [] {
      var init := ps[..|ps| - 1];
      assert Names(init) <= Names(ps);
      SetAllWithout(q, init, names);
      SetParamWithout(SetAll(q, init), ps[|ps| - 1].0, ps[|ps| - 1].1, names);
    }
  }
}

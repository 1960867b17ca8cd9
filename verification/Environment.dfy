/** Staleness propagation of `environment.py`, and the environment facts a log records. */
module Environment {
  import opened Prelude
  import opened Json
  import opened Models

  datatype Validation = Validation(changed: seq<string>, stale: seq<string>, safe: bool)

  type Dependencies = seq<Entry<seq<string>>>

  /** `d.get(key)`. */
  function Get<V>(es: seq<Entry<V>>, key: string): Option<V> {
    if es == [] then None else if es[0].key == key then Some(es[0].value) else Get(es[1..], key)
  }

  /** `d[key] = value`: a new key goes last, an old one keeps its place. */
  function Put<V>(es: seq<Entry<V>>, key: string, value: V): seq<Entry<V>> {
    if es == [] then [Entry(key, value)]
    else if es[0].key == key then [Entry(key, value)] + es[1..]
    else [es[0]] + Put(es[1..], key, value)
  }

  lemma {:induction false} PutGet<V>(es: seq<Entry<V>>, key: string, value: V, k: string)
    ensures Get(Put(es, key, value), k) == if k == key then Some(value) else Get(es, k)
  {
    if es != [] && es[0].key != key {
      PutGet(es[1..], key, value, k);
    }
  }

  // ---- sorted key lists -------------------------------------------------------------

  function AsFields(xs: seq<string>): seq<Field> {
    seq(|xs|, i requires 0 <= i < |xs| => Field(xs[i], Null))
  }

  /** Python's `sorted` on a list of strings. */
  function Sorted(xs: seq<string>): seq<string> {
    var fs := Sort(AsFields(xs));
    seq(|fs|, i requires 0 <= i < |fs| => fs[i].name)
  }

  ghost predicate Increasing(xs: seq<string>) {
    forall i, j :: 0 <= i < j < |xs| ==> Less(xs[i], xs[j])
  }

  lemma SortedElements(xs: seq<string>)
    ensures forall x :: x in Sorted(xs) <==> x in xs
  {
    var fs := AsFields(xs);
    SortKeeps(fs);
    hide Sort;
    forall i | 0 <= i < |xs| ensures xs[i] in Sorted(xs) {
      assert fs[i] in Sort(fs);
      var j :| 0 <= j < |fs| && Sort(fs)[j] == fs[i];
      assert Sorted(xs)[j] == xs[i];
    }
    forall j | 0 <= j < |Sorted(xs)| ensures Sorted(xs)[j] in xs {
      assert Sort(fs)[j] in fs;
    }
  }

  lemma SortedExact(xs: seq<string>)
    requires Distinct(xs)
    ensures Increasing(Sorted(xs)) && Distinct(Sorted(xs)) && forall x :: x in Sorted(xs) <==> x in xs
  {
    SortedElements(xs);
    SortAscending(AsFields(xs));
    hide Sort;
    forall i, j | 0 <= i < j < |Sorted(xs)| ensures Sorted(xs)[i] != Sorted(xs)[j] {
      LessTotal(Sorted(xs)[i], Sorted(xs)[j]);
    }
  }

  /** The pinned keys whose value is not the current one, in dict order. */
  function Differing(previous: seq<Entry<string>>, current: seq<Entry<string>>): seq<string> {
    if previous == [] then []
    else
      var rest := Differing(previous[1..], current);
      if Get(current, previous[0].key) != Some(previous[0].value) then [previous[0].key] + rest else rest
  }

  /** `changed`. */
  function Changed(previous: seq<Entry<string>>, current: seq<Entry<string>>): seq<string> {
    Sorted(Differing(previous, current))
  }

  /** A key counts as changed iff it is pinned to a value that is not the current one. */
  ghost predicate Drifted(previous: seq<Entry<string>>, current: seq<Entry<string>>, k: string) {
    exists i :: 0 <= i < |previous| && previous[i].key == k && Get(current, k) != Some(previous[i].value)
  }

  lemma {:induction false} DifferingExact(previous: seq<Entry<string>>, current: seq<Entry<string>>)
    requires IsDict(previous)
    ensures Distinct(Differing(previous, current))
    ensures forall k :: k in Differing(previous, current) <==> Drifted(previous, current, k)
  {
    if previous != [] {
      var p, rest := previous[0], previous[1..];
      DifferingExact(rest, current);
      assert forall i :: 0 <= i < |rest| ==> rest[i] == previous[i + 1];
      assert p.key !in Differing(rest, current);
      forall k ensures k in Differing(previous, current) <==> Drifted(previous, current, k) {
        if Drifted(rest, current, k) {
          var i :| 0 <= i < |rest| && rest[i].key == k && Get(current, k) != Some(rest[i].value);
          assert previous[i + 1] == rest[i];
        } else if k == p.key && k in Differing(previous, current) {
          assert previous[0].key == k;
        }
      }
    }
  }

  lemma ChangedExact(previous: seq<Entry<string>>, current: seq<Entry<string>>)
    requires IsDict(previous)
    ensures Increasing(Changed(previous, current)) && Distinct(Changed(previous, current))
    ensures forall k :: k in Changed(previous, current) <==> Drifted(previous, current, k)
  {
    DifferingExact(previous, current);
    SortedExact(Differing(previous, current));
  }

  // ---- the fixpoint ---------------------------------------------------------------------

  ghost predicate Hit(requirements: seq<string>, s: set<string>) {
    exists r :: r in requirements && r in s
  }

  /** No component outside `s` requires something inside `s`. */
  ghost predicate Closed(deps: Dependencies, s: set<string>) {
    forall d :: d in deps && Hit(d.value, s) ==> d.key in s
  }

  /** The least set that contains `changed` and is closed under the dependencies. */
  ghost predicate LeastInvalid(deps: Dependencies, changed: set<string>, s: set<string>) {
    changed <= s && Closed(deps, s) && forall t: set<string> :: changed <= t && Closed(deps, t) ==> s <= t
  }

  function Elements(xs: seq<string>): set<string> {
    set x | x in xs
  }

  /** A component that requires something changed, or something listed before it. */
  ghost predicate Justified(deps: Dependencies, changed: seq<string>, stale: seq<string>, i: nat)
    requires i < |stale|
  {
    exists d :: d in deps && d.key == stale[i] && Hit(d.value, Elements(changed) + Elements(stale[..i]))
  }

  ghost predicate Propagated(deps: Dependencies, changed: seq<string>, stale: seq<string>) {
    && Distinct(stale)
    && (forall x :: x in stale ==> x !in changed)
    && (forall i :: 0 <= i < |stale| ==> Justified(deps, changed, stale, i))
  }

  ghost function Components(deps: Dependencies): set<string> {
    set d | d in deps :: d.key
  }

  /** One pass of the inner `for` over the dependencies. */
  method Sweep(deps: Dependencies, ghost changed: seq<string>, stale: seq<string>, invalid: set<string>)
    returns (stale': seq<string>, invalid': set<string>, progressed: bool)
    requires Consistent(deps, changed, stale, invalid)
    ensures Consistent(deps, changed, stale', invalid') && invalid <= invalid'
    ensures if progressed then Components(deps) - invalid' < Components(deps) - invalid
            else invalid' == invalid && Closed(deps, invalid)
  {
    hide Consistent;
    stale', invalid', progressed := stale, invalid, false;
    for i := 0 to |deps|
      invariant Consistent(deps, changed, stale', invalid') && invalid <= invalid'
      invariant if progressed then Components(deps) - invalid' < Components(deps) - invalid else invalid' == invalid
      invariant !progressed ==> forall j :: 0 <= j < i && Hit(deps[j].value, invalid) ==> deps[j].key in invalid
    {
      var hit := exists r :: r in deps[i].value && r in invalid';
      assert hit <==> Hit(deps[i].value, invalid');
      if deps[i].key !in invalid' && hit {
        ConsistentStep(deps, changed, stale', invalid', i);
        assert deps[i].key in Components(deps) - invalid;
        invalid' := invalid' + {deps[i].key};
        stale' := stale' + [deps[i].key];
        progressed := true;
      }
    }
  }

  /** `validate_environment`. */
  method ValidateEnvironment(previous: Snapshot, current: Snapshot, deps: Dependencies)
    returns (v: Validation)
    requires IsDict(deps)
    ensures v.changed == Changed(previous, current)
    ensures Propagated(deps, v.changed, v.stale)
    ensures LeastInvalid(deps, Elements(v.changed), Elements(v.changed) + Elements(v.stale))
    ensures v.safe <==> forall k :: !Drifted(previous, current, k)
    ensures v.safe <==> v.changed == [] && v.stale == []
  {
    var changed := Changed(previous, current);
    var stale: seq<string> := [];
    var invalid := set x | x in changed;
    var progressed := true;
    assert Consistent(deps, changed, stale, invalid);
    hide Changed, Consistent;
    while progressed
      invariant Consistent(deps, changed, stale, invalid)
      invariant !progressed ==> Closed(deps, invalid)
      decreases Components(deps) - invalid, progressed
    {
      stale, invalid, progressed := Sweep(deps, changed, stale, invalid);
    }
    ConsistentIsLeast(deps, changed, stale, invalid);
    ChangedExact(previous, current);
    if changed == [] { NothingChanged(deps, stale); }
    assert changed != [] ==> changed[0] in changed;
    return Validation(changed, stale, changed == [] && stale == []);
  }

  /** What the loops keep about the set and the list they grow together. */
  ghost predicate Consistent(deps: Dependencies, changed: seq<string>, stale: seq<string>, invalid: set<string>) {
    invalid == Elements(changed) + Elements(stale) && Propagated(deps, changed, stale)
  }

  lemma ConsistentStep(deps: Dependencies, changed: seq<string>, stale: seq<string>, invalid: set<string>, i: nat)
    requires Consistent(deps, changed, stale, invalid) && i < |deps|
    requires deps[i].key !in invalid && Hit(deps[i].value, invalid)
    ensures Consistent(deps, changed, stale + [deps[i].key], invalid + {deps[i].key})
  {
    var longer := stale + [deps[i].key];
    assert longer[..|stale|] == stale;
    assert Elements(longer) == Elements(stale) + {deps[i].key};
    forall j | 0 <= j < |longer| ensures Justified(deps, changed, longer, j) {
      if j < |stale| {
        assert Justified(deps, changed, stale, j);
        assert longer[..j] == stale[..j];
      } else {
        assert deps[i] in deps;
      }
    }
  }

  /** Everything listed stale is in every closed set above `changed`. */
  lemma {:induction false} PropagatedInside(deps: Dependencies, changed: seq<string>, stale: seq<string>, n: nat,
                                            t: set<string>)
    requires Propagated(deps, changed, stale) && n <= |stale| && Elements(changed) <= t && Closed(deps, t)
    ensures Elements(stale[..n]) <= t
  {
    if n > 0 {
      PropagatedInside(deps, changed, stale, n - 1, t);
      assert Justified(deps, changed, stale, n - 1);
      assert stale[..n] == stale[..n - 1] + [stale[n - 1]];
      var d :| d in deps && d.key == stale[n - 1] && Hit(d.value, Elements(changed) + Elements(stale[..n - 1]));
      assert Hit(d.value, t);
    }
  }

  lemma ConsistentIsLeast(deps: Dependencies, changed: seq<string>, stale: seq<string>, invalid: set<string>)
    requires Consistent(deps, changed, stale, invalid) && Closed(deps, invalid)
    ensures Propagated(deps, changed, stale)
    ensures LeastInvalid(deps, Elements(changed), Elements(changed) + Elements(stale))
  {
    forall t: set<string> | Elements(changed) <= t && Closed(deps, t)
      ensures Elements(changed) + Elements(stale) <= t
    {
      PropagatedInside(deps, changed, stale, |stale|, t);
      assert stale[..|stale|] == stale;
    }
  }

  lemma FirstUnjustified(deps: Dependencies, stale: seq<string>)
    requires stale != []
    ensures !Justified(deps, [], stale, 0)
  {
    assert Elements([]) + Elements(stale[..0]) == {};
  }

  lemma NothingChanged(deps: Dependencies, stale: seq<string>)
    requires Propagated(deps, [], stale)
    ensures stale == []
  {
    if stale != [] { FirstUnjustified(deps, stale); }
  }

  /** The invalid set depends on the dict's entries only, not on their order. */
  lemma OrderDoesNotMatter(deps: Dependencies, deps': Dependencies, changed: set<string>, s: set<string>,
                           s': set<string>)
    requires forall d :: d in deps <==> d in deps'
    requires LeastInvalid(deps, changed, s) && LeastInvalid(deps', changed, s')
    ensures s == s'
  {
    assert Closed(deps, s') && Closed(deps', s);
  }

  // ---- what the log says about the environment -----------------------------------------

  /** `pinned_environment`: the latest pin. */
  function Pinned(es: seq<Event>): Option<Snapshot> {
    if es == [] then None
    else if es[|es| - 1].fact.EnvironmentPinned? then Some(es[|es| - 1].fact.values)
    else Pinned(es[..|es| - 1])
  }

  /** The pinned environment is the one pinned last. */
  lemma {:induction false} PinnedExact(es: seq<Event>)
    ensures forall v :: Pinned(es) == Some(v) <==>
              exists i :: 0 <= i < |es| && es[i].fact == EnvironmentPinned(v) && NoPinAfter(es, i)
    decreases |es|
  {
    if es != [] {
      var n := |es| - 1;
      var front := es[..n];
      PinnedExact(front);
      if !es[n].fact.EnvironmentPinned? {
        forall i | 0 <= i < n ensures es[i] == front[i] && (NoPinAfter(es, i) <==> NoPinAfter(front, i)) {}
      }
    }
  }

  ghost predicate NoPinAfter(es: seq<Event>, i: int) {
    forall j :: 0 <= i < j < |es| ==> !es[j].fact.EnvironmentPinned?
  }

  function Graph(es: seq<Event>): Dependencies {
    if es == [] then []
    else
      var f := es[|es| - 1].fact;
      var front := Graph(es[..|es| - 1]);
      if f.DependencyDeclared? then Put(front, f.component, f.requirements) else front
  }

  /** `dependency_graph`. */
  method DependencyGraph(es: seq<Event>) returns (graph: Dependencies)
    ensures graph == Graph(es)
  {
    graph := [];
    for i := 0 to |es|
      invariant graph == Graph(es[..i])
    {
      assert es[..i + 1][..i] == es[..i];
      if es[i].fact.DependencyDeclared? {
        graph := Put(graph, es[i].fact.component, es[i].fact.requirements);
      }
    }
    assert es[..|es|] == es;
  }

  function Declared(es: seq<Event>, component: string): Option<seq<string>> {
    if es == [] then None
    else
      var f := es[|es| - 1].fact;
      if f.DependencyDeclared? && f.component == component then Some(f.requirements)
      else Declared(es[..|es| - 1], component)
  }

  ghost predicate NoneAfter(es: seq<Event>, component: string, i: int) {
    forall j :: 0 <= i < j < |es| && es[j].fact.DependencyDeclared? ==> es[j].fact.component != component
  }

  lemma {:induction false} DeclaredExact(es: seq<Event>, c: string)
    ensures forall v :: Declared(es, c) == Some(v) <==>
              exists i :: 0 <= i < |es| && es[i].fact == DependencyDeclared(c, v) && NoneAfter(es, c, i)
    decreases |es|
  {
    if es != [] {
      var n := |es| - 1;
      var front := es[..n];
      DeclaredExact(front, c);
      if !(es[n].fact.DependencyDeclared? && es[n].fact.component == c) {
        forall i | 0 <= i < n ensures es[i] == front[i] && (NoneAfter(es, c, i) <==> NoneAfter(front, c, i)) {}
      }
    }
  }

  lemma {:induction false} PutIsDict<V>(es: seq<Entry<V>>, key: string, value: V)
    requires IsDict(es)
    ensures IsDict(Put(es, key, value))
    ensures forall e :: e in Put(es, key, value) ==> e.key == key || e in es
  {
    if es != [] && es[0].key != key { PutIsDict(es[1..], key, value); }
  }

  lemma {:induction false} GraphDeclares(es: seq<Event>)
    ensures IsDict(Graph(es)) && forall c :: Get(Graph(es), c) == Declared(es, c)
  {
    if es != [] {
      var front, f := es[..|es| - 1], es[|es| - 1].fact;
      GraphDeclares(front);
      if f.DependencyDeclared? {
        PutIsDict(Graph(front), f.component, f.requirements);
        forall c ensures Get(Graph(es), c) == Declared(es, c) {
          PutGet(Graph(front), f.component, f.requirements, c);
        }
      }
    }
  }

  lemma {:induction false} GetExact<V>(es: seq<Entry<V>>, key: string)
    requires IsDict(es)
    ensures forall v :: Get(es, key) == Some(v) <==> Entry(key, v) in es
  {
    if es != [] {
      GetExact(es[1..], key);
      assert es == [es[0]] + es[1..];
    }
  }

  /** The graph is a dict that gives every component its latest declaration. */
  lemma GraphExact(es: seq<Event>)
    ensures IsDict(Graph(es))
    ensures forall c, v :: Entry(c, v) in Graph(es) <==>
              exists i :: 0 <= i < |es| && es[i].fact == DependencyDeclared(c, v) && NoneAfter(es, c, i)
  {
    hide Graph, Declared, Get, IsDict, NoneAfter;
    GraphDeclares(es);
    forall c, v
      ensures Entry(c, v) in Graph(es) <==>
              exists i :: 0 <= i < |es| && es[i].fact == DependencyDeclared(c, v) && NoneAfter(es, c, i)
    {
      GetExact(Graph(es), c);
      DeclaredExact(es, c);
      assert Get(Graph(es), c) == Some(v) <==> Entry(c, v) in Graph(es);
    }
  }
}

/**
 * The dependency graph of omnigibson/object_states/factory.py and the order in which states
 * must be set up: `get_state_dependency_graph` and `get_states_by_dependency_order`.
 *
 * The source reverses a networkx topological sort of the graph whose edges run from a state to
 * each of its dependencies, which puts every dependency before the states that need it. Here that
 * order is built directly, dependencies first, by repeatedly taking the first catalogued state
 * whose dependencies have all been placed; where networkx would raise because the graph has a
 * cycle, the result is None.
 */
module DependencyOrder {
  import opened Wrappers
  import opened StateCatalogue

  /** The out-edges of `k` in the dependency graph: its required, then its optional dependencies. */
  function Dependencies(classes: StateClasses, k: StateKind): seq<StateKind> {
    classes.dependencies(k) + classes.optionalDependencies(k)
  }

  /** `get_state_dependency_graph()` as an adjacency map. */
  function DependencyGraph(classes: StateClasses): (g: map<StateKind, seq<StateKind>>)
    ensures g.Keys == AllStates()
    ensures forall k, d :: k in g ==>
      (d in g[k] <==> d in classes.dependencies(k) || d in classes.optionalDependencies(k))
  {
    map k | k in AllStatesList :: Dependencies(classes, k)
  }

  /** Every dependency of every element of `order` occurs strictly before it. */
  ghost predicate DepsFirst(classes: StateClasses, order: seq<StateKind>) {
    forall i, d :: 0 <= i < |order| && d in Dependencies(classes, order[i]) ==> d in order[..i]
  }

  /** `order` lists every state exactly once, each after all its dependencies. */
  ghost predicate IsDependencyOrder(classes: StateClasses, order: seq<StateKind>) {
    Distinct(order) && (forall k :: k in order) && DepsFirst(classes, order)
  }

  /** All dependencies of `k` are among the states already placed. */
  predicate Ready(classes: StateClasses, placed: seq<StateKind>, k: StateKind) {
    forall d :: d in Dependencies(classes, k) ==> d in placed
  }

  /** Index of the first pending state that is ready, if any. */
  function FirstReady(classes: StateClasses, placed: seq<StateKind>, pending: seq<StateKind>): (r: Option<nat>)
    ensures r.Some? ==> r.value < |pending| && Ready(classes, placed, pending[r.value])
    ensures r.None? <==> forall k :: k in pending ==> !Ready(classes, placed, k)
  {
    if pending == [] then None
    else if Ready(classes, placed, pending[0]) then Some(0)
    else
      match FirstReady(classes, placed, pending[1..])
      case None => None
      case Some(i) => Some(i + 1)
  }

  /** `s` without its element at index `i`. */
  function RemoveAt(s: seq<StateKind>, i: nat): (r: seq<StateKind>)
    requires i < |s|
    ensures |r| == |s| - 1
    ensures forall k :: k in s && k != s[i] ==> k in r
    ensures forall k :: k in r ==> k in s
  {
    s[..i] + s[i + 1..]
  }

  lemma RemoveAtDistinct(s: seq<StateKind>, i: nat)
    requires i < |s| && Distinct(s)
    ensures Distinct(RemoveAt(s, i))
    ensures s[i] !in RemoveAt(s, i)
  {
    var r := RemoveAt(s, i);
    assert forall a :: 0 <= a < |r| ==> r[a] == if a < i then s[a] else s[a + 1];
  }

  /** Places the pending states one at a time after `placed`; None when none of them is ready. */
  function Schedule(classes: StateClasses, placed: seq<StateKind>, pending: seq<StateKind>): Option<seq<StateKind>>
    decreases |pending|
  {
    if pending == [] then Some(placed)
    else
      match FirstReady(classes, placed, pending)
      case None => None
      case Some(i) => Schedule(classes, placed + [pending[i]], RemoveAt(pending, i))
  }

  /** `get_states_by_dependency_order()`; None where the source's topological sort raises. */
  function StatesByDependencyOrder(classes: StateClasses): Option<seq<StateKind>> {
    Schedule(classes, [], AllStatesList)
  }

  lemma DepsFirstExtend(classes: StateClasses, placed: seq<StateKind>, x: StateKind)
    requires DepsFirst(classes, placed) && Ready(classes, placed, x)
    ensures DepsFirst(classes, placed + [x])
  {
    var o := placed + [x];
    forall i, d | 0 <= i < |o| && d in Dependencies(classes, o[i]) ensures d in o[..i] {
      if i < |placed| {
        assert o[i] == placed[i] && o[..i] == placed[..i];
      } else {
        assert o[..i] == placed;
      }
    }
  }

  lemma {:induction false} ScheduleSound(classes: StateClasses, placed: seq<StateKind>, pending: seq<StateKind>)
    requires Distinct(placed) && Distinct(pending)
    requires forall k :: k in placed ==> k !in pending
    requires DepsFirst(classes, placed)
    requires Schedule(classes, placed, pending).Some?
    ensures var o := Schedule(classes, placed, pending).value;
      Distinct(o) && DepsFirst(classes, o) && |o| == |placed| + |pending|
      && forall k :: k in o <==> k in placed || k in pending
    decreases |pending|
  {
    if pending != [] {
      var i := FirstReady(classes, placed, pending).value;
      var x := pending[i];
      var rest := RemoveAt(pending, i);
      RemoveAtDistinct(pending, i);
      DepsFirstExtend(classes, placed, x);
      var next := placed + [x];
      assert Distinct(next) by {
        forall a, b | 0 <= a < b < |next| ensures next[a] != next[b] {
          if b == |placed| {
            assert next[a] in placed;
          }
        }
      }
      ScheduleSound(classes, next, rest);
    }
  }

  /**
   * Whatever order comes out lists every catalogued state exactly once, and every state after
   * all of its required and optional dependencies.
   */
  lemma DependencyOrderSound(classes: StateClasses)
    ensures var r := StatesByDependencyOrder(classes);
      r.Some? ==> IsDependencyOrder(classes, r.value) && |r.value| == |AllStatesList|
  {
    if StatesByDependencyOrder(classes).Some? {
      AllStatesDistinct();
      ScheduleSound(classes, [], AllStatesList);
      forall k ensures k in StatesByDependencyOrder(classes).value {
        EveryKindCatalogued(k);
      }
    }
  }

  /** Index of the first element of `v` that is still pending. */
  function FirstPendingIn(v: seq<StateKind>, pending: seq<StateKind>): (j: nat)
    requires pending != [] && pending[0] in v
    ensures j < |v| && v[j] in pending
    ensures forall m :: 0 <= m < j ==> v[m] !in pending
  {
    if v[0] in pending then 0 else 1 + FirstPendingIn(v[1..], pending)
  }

  lemma {:induction false} ScheduleComplete(classes: StateClasses, placed: seq<StateKind>, pending: seq<StateKind>, v: seq<StateKind>)
    requires IsDependencyOrder(classes, v)
    requires forall k :: k in placed || k in pending
    ensures Schedule(classes, placed, pending).Some?
    decreases |pending|
  {
    if pending != [] {
      var j := FirstPendingIn(v, pending);
      assert Ready(classes, placed, v[j]) by {
        forall d | d in Dependencies(classes, v[j]) ensures d in placed {
          assert d in v[..j];
          var m :| 0 <= m < j && v[m] == d;
        }
      }
      var i := FirstReady(classes, placed, pending).value;
      ScheduleComplete(classes, placed + [pending[i]], RemoveAt(pending, i), v);
    }
  }

  /** Whenever some order satisfies every dependency, the construction finds one. */
  lemma DependencyOrderComplete(classes: StateClasses, v: seq<StateKind>)
    requires IsDependencyOrder(classes, v)
    ensures StatesByDependencyOrder(classes).Some?
  {
    forall k ensures k in [] || k in AllStatesList {
      EveryKindCatalogued(k);
    }
    ScheduleComplete(classes, [], AllStatesList, v);
  }

  /** The construction succeeds exactly when the dependencies admit an order. */
  lemma DependencyOrderExists(classes: StateClasses)
    ensures StatesByDependencyOrder(classes).Some? <==> exists v :: IsDependencyOrder(classes, v)
  {
    if StatesByDependencyOrder(classes).Some? {
      DependencyOrderSound(classes);
      assert IsDependencyOrder(classes, StatesByDependencyOrder(classes).value);
    } else {
      forall v | IsDependencyOrder(classes, v) ensures false {
        DependencyOrderComplete(classes, v);
      }
    }
  }

  /** `c` is a cycle of the graph: each element depends on the next, the last on the first. */
  ghost predicate IsCycle(classes: StateClasses, c: seq<StateKind>) {
    |c| > 0 && forall i :: 0 <= i < |c| ==> c[(i + 1) % |c|] in Dependencies(classes, c[i])
  }

  /** The position of `k` in `v`. */
  ghost function Pos(v: seq<StateKind>, k: StateKind): (p: nat)
    requires k in v
    ensures p < |v| && v[p] == k
  {
    var p :| 0 <= p < |v| && v[p] == k; p
  }

  lemma DependencyBefore(classes: StateClasses, v: seq<StateKind>, k: StateKind, d: StateKind)
    requires IsDependencyOrder(classes, v)
    requires d in Dependencies(classes, k)
    ensures Pos(v, d) < Pos(v, k)
  {
    var p := Pos(v, k);
    assert d in v[..p];
    var m :| 0 <= m < p && v[m] == d;
  }

  lemma {:induction false} CycleDescends(classes: StateClasses, c: seq<StateKind>, v: seq<StateKind>, n: nat)
    requires IsDependencyOrder(classes, v) && IsCycle(classes, c)
    requires n < |c|
    ensures Pos(v, c[n]) + n <= Pos(v, c[0])
  {
    if n > 0 {
      CycleDescends(classes, c, v, n - 1);
      assert (n - 1 + 1) % |c| == n;
      DependencyBefore(classes, v, c[n - 1], c[n]);
    }
  }

  /** No order satisfies every dependency of a cycle. */
  lemma CycleBlocksOrder(classes: StateClasses, c: seq<StateKind>, v: seq<StateKind>)
    requires IsCycle(classes, c)
    ensures !IsDependencyOrder(classes, v)
  {
    if IsDependencyOrder(classes, v) {
      var n := |c| - 1;
      CycleDescends(classes, c, v, n);
      assert (n + 1) % |c| == 0;
      DependencyBefore(classes, v, c[n], c[0]);
    }
  }

  /** A dependency cycle admits no order, so the source's topological sort raises. */
  lemma CycleHasNoOrder(classes: StateClasses, c: seq<StateKind>)
    requires IsCycle(classes, c)
    ensures StatesByDependencyOrder(classes).None?
  {
    if StatesByDependencyOrder(classes).Some? {
      DependencyOrderSound(classes);
      CycleBlocksOrder(classes, c, StatesByDependencyOrder(classes).value);
    }
  }
}

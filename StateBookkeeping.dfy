/**
 * What both `StatefulObject` classes compute over their ordered state map, stated as functions on
 * the map's key order: the texture-change state `update_visuals` picks, the `non_kin` part of
 * `_dump_state`, the effect of `_load_state`, the index walk of `_deserialize` and the effect of
 * `clear_cached_states`. The classes' loops are proved against these.
 *
 * The dump and the deserialized dict are keyed by each state's class name. The functions take the
 * naming function as `name`; the classes pass `get_state_name` (`StateName`), and the round trips
 * rely only on its being injective.
 */
module StateBookkeeping {
  import opened Wrappers
  import opened StateCatalogue
  import opened StateAssembly
  import opened Slices

  /** The rank `get_texture_change_priority()` gives a texture-change state. */
  function Priority(k: StateKind): int
    requires k in TextureChangeStates()
  {
    TextureChangePriority()[k]
  }

  /** No two texture-change states share a rank. */
  lemma PriorityInjective(a: StateKind, b: StateKind)
    requires a in TextureChangeStates() && b in TextureChangeStates()
    requires Priority(a) == Priority(b)
    ensures a == b
  {
  }

  /** The texture-change states of `order` that `active` reports as on, in order. */
  function ActiveTextureStates(order: seq<StateKind>, active: StateKind -> bool): (r: seq<StateKind>)
    ensures forall k :: k in r <==> k in order && k in TextureChangeStates() && active(k)
    decreases |order|
  {
    if order == [] then []
    else
      var front := order[..|order| - 1];
      var last := order[|order| - 1];
      assert order == front + [last];
      var r := ActiveTextureStates(front, active);
      if last in TextureChangeStates() && active(last) then r + [last] else r
  }

  /**
   * The last element once `ks` is stably sorted by priority: the state of highest priority, the
   * later one on a tie.
   */
  function HighestPriority(ks: seq<StateKind>): (r: Option<StateKind>)
    requires forall k :: k in ks ==> k in TextureChangeStates()
    ensures r.None? <==> ks == []
    ensures r.Some? ==> r.value in ks && forall k :: k in ks ==> Priority(k) <= Priority(r.value)
    decreases |ks|
  {
    if ks == [] then None
    else
      match HighestPriority(ks[1..])
      case None => Some(ks[0])
      case Some(best) => if Priority(ks[0]) <= Priority(best) then Some(best) else Some(ks[0])
  }

  /**
   * The state `update_visuals` hands to `_update_texture_change`: None when no texture-change
   * state of the map is active, otherwise the active one whose priority beats every other's.
   */
  lemma ChosenTextureState(order: seq<StateKind>, active: StateKind -> bool)
    ensures var c := HighestPriority(ActiveTextureStates(order, active));
      (c.None? <==> forall k :: k in order && k in TextureChangeStates() ==> !active(k))
      && (c.Some? ==>
            c.value in order && c.value in TextureChangeStates() && active(c.value)
            && forall k :: k in order && k in TextureChangeStates() && active(k) && k != c.value ==>
                 Priority(k) < Priority(c.value))
  {
    var ks := ActiveTextureStates(order, active);
    if ks != [] {
      assert ks[0] in ks;
    }
  }

  /** The settable states of `order`, in order. */
  function SettableStates(classes: StateClasses, order: seq<StateKind>): (r: seq<StateKind>)
    ensures forall k :: k in r <==> k in order && classes.settable(k)
    decreases |order|
  {
    if order == [] then []
    else
      var front := order[..|order| - 1];
      var last := order[|order| - 1];
      assert order == front + [last];
      var r := SettableStates(classes, front);
      if classes.settable(last) then r + [last] else r
  }

  /** The `non_kin` part of `_dump_state`: each settable state's class name and dumped data, in map order. */
  function Dumped(classes: StateClasses, name: StateKind -> string, instances: map<StateKind, StateInstance>, order: seq<StateKind>): (r: seq<(string, seq<real>)>)
    requires forall k :: k in order ==> k in instances
    ensures var ks := SettableStates(classes, order);
      |r| == |ks| && forall p :: 0 <= p < |r| ==> r[p] == (name(ks[p]), instances[ks[p]].data)
    decreases |order|
  {
    if order == [] then []
    else
      var front := order[..|order| - 1];
      var last := order[|order| - 1];
      var r := Dumped(classes, name, instances, front);
      if classes.settable(last) then r + [(name(last), instances[last].data)] else r
  }

  /** An ordered dict built from its items; a later item for the same key wins. */
  function AsDict(items: seq<(string, seq<real>)>): (d: map<string, seq<real>>)
    ensures forall key :: key in d <==> exists p :: 0 <= p < |items| && items[p].0 == key
    decreases |items|
  {
    if items == [] then map[]
    else
      var front := items[..|items| - 1];
      var last := items[|items| - 1];
      var d := AsDict(front);
      assert forall p :: 0 <= p < |front| ==> items[p] == front[p];
      d[last.0 := last.1]
  }

  /**
   * The instances after `_load_state(dump)` has walked the states of `order`: a settable state
   * whose name is in the dump takes the dumped data; every other state is unchanged.
   */
  function Loaded(classes: StateClasses, name: StateKind -> string, instances: map<StateKind, StateInstance>, order: seq<StateKind>, dump: map<string, seq<real>>): (r: map<StateKind, StateInstance>)
    ensures r.Keys == instances.Keys
  {
    map k | k in instances ::
      if k in order && classes.settable(k) && name(k) in dump then instances[k].(data := dump[name(k)])
      else instances[k]
  }

  /** The warning `_load_state` logs for a settable state missing from the dump. */
  function MissingWarning(name: StateKind -> string, k: StateKind): string {
    "Missing object state [" + name(k) + "] in the state dump"
  }

  /** The warnings `_load_state(dump)` logs while walking `order`, in order. */
  function MissingWarnings(classes: StateClasses, name: StateKind -> string, order: seq<StateKind>, dump: map<string, seq<real>>): (w: seq<string>)
    ensures w == [] <==> forall k :: k in order && classes.settable(k) ==> name(k) in dump
    ensures |w| <= |order|
    decreases |order|
  {
    if order == [] then []
    else
      var front := order[..|order| - 1];
      var last := order[|order| - 1];
      assert order == front + [last];
      var w := MissingWarnings(classes, name, front, dump);
      if classes.settable(last) && name(last) !in dump then w + [MissingWarning(name, last)] else w
  }

  /** No two states share a name under `name`. */
  ghost predicate Injective(name: StateKind -> string) {
    forall a, b :: name(a) == name(b) ==> a == b
  }

  /** `get_state_name` gives every state class its own name. */
  lemma StateNameIsInjective()
    ensures Injective(StateName)
  {
    forall a, b | StateName(a) == StateName(b) ensures a == b {
      StateNameInjective(a, b);
    }
  }

  lemma AsDictAppend(items: seq<(string, seq<real>)>, item: (string, seq<real>))
    ensures AsDict(items + [item]) == AsDict(items)[item.0 := item.1]
  {
    assert (items + [item])[..|items|] == items;
  }

  lemma DumpedLast(classes: StateClasses, name: StateKind -> string, instances: map<StateKind, StateInstance>, order: seq<StateKind>)
    requires order != [] && forall k :: k in order ==> k in instances
    ensures var last := order[|order| - 1];
      Dumped(classes, name, instances, order)
        == Dumped(classes, name, instances, order[..|order| - 1])
           + (if classes.settable(last) then [(name(last), instances[last].data)] else [])
  {
  }

  /** In the dict of a dump, each settable state's name maps to its data, when no other state shares that name. */
  lemma {:induction false} DumpedDict(classes: StateClasses, name: StateKind -> string, instances: map<StateKind, StateInstance>, order: seq<StateKind>, k: StateKind)
    requires forall j :: j in order ==> j in instances && (j != k ==> name(j) != name(k))
    requires k in order && classes.settable(k)
    ensures var d := AsDict(Dumped(classes, name, instances, order));
      name(k) in d && d[name(k)] == instances[k].data
    decreases |order|
  {
    var front := order[..|order| - 1];
    var last := order[|order| - 1];
    var before := Dumped(classes, name, instances, front);
    assert order == front + [last];
    DumpedLast(classes, name, instances, order);
    if k == last {
      AsDictAppend(before, (name(last), instances[last].data));
    } else {
      assert k in front;
      DumpedDict(classes, name, instances, front, k);
      if classes.settable(last) {
        AsDictAppend(before, (name(last), instances[last].data));
      } else {
        assert before + [] == before;
      }
    }
  }

  /**
   * Loading a map's own dump restores every state and logs nothing: `_load_state` undoes
   * `_dump_state`.
   */
  lemma DumpLoadRoundTrip(classes: StateClasses, name: StateKind -> string, m: StateMap)
    requires Injective(name) && m.Valid()
    ensures var dump := AsDict(Dumped(classes, name, m.instances, m.order));
      Loaded(classes, name, m.instances, m.order, dump) == m.instances
      && MissingWarnings(classes, name, m.order, dump) == []
  {
    var dump := AsDict(Dumped(classes, name, m.instances, m.order));
    forall k | k in m.order && classes.settable(k) ensures name(k) in dump && dump[name(k)] == m.instances[k].data {
      forall j | j in m.order ensures j in m.instances && (j != k ==> name(j) != name(k)) {
        assert name(j) == name(k) ==> j == k;
      }
      DumpedDict(classes, name, m.instances, m.order, k);
    }
    var loaded := Loaded(classes, name, m.instances, m.order, dump);
    forall k | k in m.instances ensures loaded[k] == m.instances[k] {
    }
  }

  /** The summed `state_size` of the states `ks`. */
  function TotalSize(classes: StateClasses, ks: seq<StateKind>): nat
    decreases |ks|
  {
    if ks == [] then 0 else TotalSize(classes, ks[..|ks| - 1]) + classes.stateSize(ks[|ks| - 1])
  }

  /**
   * The `non_kin` part of `_deserialize`: state `ks[p]` reads the slice of `flat` that starts
   * after the sizes of the states before it, from index `start` on.
   */
  function Unflatten(classes: StateClasses, name: StateKind -> string, ks: seq<StateKind>, flat: seq<real>, start: nat): (r: seq<(string, seq<real>)>)
    ensures |r| == |ks|
    ensures forall p :: 0 <= p < |ks| ==> r[p].0 == name(ks[p])
    decreases |ks|
  {
    if ks == [] then []
    else
      var front := ks[..|ks| - 1];
      var last := ks[|ks| - 1];
      var at := start + TotalSize(classes, front);
      Unflatten(classes, name, front, flat, start) + [(name(last), Slice(flat, at, at + classes.stateSize(last)))]
  }

  /** `_serialize`'s concatenation of the per-state arrays, in order. */
  function Flatten(items: seq<(string, seq<real>)>): (flat: seq<real>)
    decreases |items|
  {
    if items == [] then [] else Flatten(items[..|items| - 1]) + items[|items| - 1].1
  }

  lemma {:induction false} UnflattenSizes(classes: StateClasses, name: StateKind -> string, ks: seq<StateKind>, flat: seq<real>, start: nat)
    requires start + TotalSize(classes, ks) <= |flat|
    ensures var r := Unflatten(classes, name, ks, flat, start);
      forall p :: 0 <= p < |ks| ==> |r[p].1| == classes.stateSize(ks[p])
    decreases |ks|
  {
    if ks != [] {
      var front := ks[..|ks| - 1];
      UnflattenSizes(classes, name, front, flat, start);
      var rf := Unflatten(classes, name, front, flat, start);
      var r := Unflatten(classes, name, ks, flat, start);
      forall p | 0 <= p < |front| ensures |r[p].1| == classes.stateSize(ks[p]) {
        assert r[p] == rf[p] && ks[p] == front[p];
      }
    }
  }

  lemma UnflattenLast(classes: StateClasses, name: StateKind -> string, ks: seq<StateKind>, flat: seq<real>, start: nat)
    requires ks != [] && start + TotalSize(classes, ks) <= |flat|
    ensures var front := ks[..|ks| - 1];
      var at := start + TotalSize(classes, front);
      Flatten(Unflatten(classes, name, ks, flat, start))
        == Flatten(Unflatten(classes, name, front, flat, start)) + flat[at..at + classes.stateSize(ks[|ks| - 1])]
  {
    var r := Unflatten(classes, name, ks, flat, start);
    assert r[..|r| - 1] == Unflatten(classes, name, ks[..|ks| - 1], flat, start);
  }

  lemma SliceJoin(s: seq<real>, a: nat, b: nat, c: nat)
    requires a <= b <= c <= |s|
    ensures s[a..c] == s[a..b] + s[b..c]
  {
  }

  lemma {:induction false} UnflattenFlattens(classes: StateClasses, name: StateKind -> string, ks: seq<StateKind>, flat: seq<real>, start: nat)
    requires start + TotalSize(classes, ks) <= |flat|
    ensures Flatten(Unflatten(classes, name, ks, flat, start)) == flat[start..start + TotalSize(classes, ks)]
    decreases |ks|
  {
    if ks != [] {
      var front := ks[..|ks| - 1];
      var at := start + TotalSize(classes, front);
      UnflattenFlattens(classes, name, front, flat, start);
      UnflattenLast(classes, name, ks, flat, start);
      SliceJoin(flat, start, at, start + TotalSize(classes, ks));
    }
  }

  /**
   * When the flat array is long enough, the slices `_deserialize` reads are exactly as long as
   * their states' sizes and together make up the flat array from `start` to the returned index.
   */
  lemma UnflattenCovers(classes: StateClasses, name: StateKind -> string, ks: seq<StateKind>, flat: seq<real>, start: nat)
    requires start + TotalSize(classes, ks) <= |flat|
    ensures var r := Unflatten(classes, name, ks, flat, start);
      (forall p :: 0 <= p < |ks| ==> |r[p].1| == classes.stateSize(ks[p]))
      && Flatten(r) == flat[start..start + TotalSize(classes, ks)]
  {
    UnflattenSizes(classes, name, ks, flat, start);
    UnflattenFlattens(classes, name, ks, flat, start);
  }

  /** Arrays of their states' sizes flatten to the summed size. */
  lemma {:induction false} FlattenSize(classes: StateClasses, ks: seq<StateKind>, items: seq<(string, seq<real>)>)
    requires |items| == |ks|
    requires forall p :: 0 <= p < |ks| ==> |items[p].1| == classes.stateSize(ks[p])
    ensures TotalSize(classes, ks) == |Flatten(items)|
    decreases |ks|
  {
    if ks != [] {
      FlattenSize(classes, ks[..|ks| - 1], items[..|items| - 1]);
    }
  }

  /**
   * `_deserialize` undoes `_serialize`: per-state arrays of the right sizes, flattened and embedded
   * at `|before|`, come back as the same items.
   */
  lemma {:induction false} SerializeRoundTrip(classes: StateClasses, name: StateKind -> string, ks: seq<StateKind>, items: seq<(string, seq<real>)>, before: seq<real>, after: seq<real>)
    requires |items| == |ks|
    requires forall p :: 0 <= p < |ks| ==> items[p].0 == name(ks[p]) && |items[p].1| == classes.stateSize(ks[p])
    ensures Unflatten(classes, name, ks, before + Flatten(items) + after, |before|) == items
    decreases |ks|
  {
    if ks != [] {
      var front := ks[..|ks| - 1];
      var last := ks[|ks| - 1];
      var fronti := items[..|items| - 1];
      var lasti := items[|items| - 1];
      var head := before + Flatten(fronti);
      var flat := before + Flatten(items) + after;
      assert flat == head + lasti.1 + after;
      assert head + lasti.1 + after == before + Flatten(fronti) + (lasti.1 + after);
      SerializeRoundTrip(classes, name, front, fronti, before, lasti.1 + after);
      FlattenSize(classes, front, fronti);
      SliceOfJoin(head, lasti.1, after);
      assert Slice(flat, |head|, |head| + classes.stateSize(last)) == lasti.1;
      assert items == fronti + [lasti];
    }
  }

  lemma SliceOfJoin(a: seq<real>, b: seq<real>, c: seq<real>)
    ensures (a + b + c)[|a|..|a| + |b|] == b
  {
  }

  /**
   * The instances after `clear_cached_states` has walked the states of `order`: each
   * caching-enabled state has dropped its cached value; every other state is unchanged.
   */
  function Cleared(classes: StateClasses, instances: map<StateKind, StateInstance>, order: seq<StateKind>): (r: map<StateKind, StateInstance>)
    ensures r.Keys == instances.Keys
  {
    map k | k in instances ::
      if k in order && classes.cachingEnabled(k) then instances[k].(hasCachedValue := false) else instances[k]
  }

  lemma ActiveTextureStatesStep(order: seq<StateKind>, active: StateKind -> bool, i: nat)
    requires i < |order|
    ensures ActiveTextureStates(order[..i + 1], active)
      == ActiveTextureStates(order[..i], active)
         + (if order[i] in TextureChangeStates() && active(order[i]) then [order[i]] else [])
  {
    assert order[..i + 1][..i] == order[..i];
  }

  lemma SettableStep(classes: StateClasses, order: seq<StateKind>, i: nat)
    requires i < |order|
    ensures SettableStates(classes, order[..i + 1])
      == SettableStates(classes, order[..i]) + (if classes.settable(order[i]) then [order[i]] else [])
  {
    assert order[..i + 1][..i] == order[..i];
  }

  lemma DumpedStep(classes: StateClasses, name: StateKind -> string, instances: map<StateKind, StateInstance>, order: seq<StateKind>, i: nat)
    requires i < |order| && forall k :: k in order ==> k in instances
    ensures Dumped(classes, name, instances, order[..i + 1])
      == Dumped(classes, name, instances, order[..i])
         + (if classes.settable(order[i]) then [(name(order[i]), instances[order[i]].data)] else [])
  {
    assert order[..i + 1][..i] == order[..i];
  }

  lemma MissingWarningsStep(classes: StateClasses, name: StateKind -> string, order: seq<StateKind>, dump: map<string, seq<real>>, i: nat)
    requires i < |order|
    ensures MissingWarnings(classes, name, order[..i + 1], dump)
      == MissingWarnings(classes, name, order[..i], dump)
         + (if classes.settable(order[i]) && name(order[i]) !in dump then [MissingWarning(name, order[i])] else [])
  {
    assert order[..i + 1][..i] == order[..i];
  }

  lemma UnflattenStep(classes: StateClasses, name: StateKind -> string, ks: seq<StateKind>, k: StateKind, flat: seq<real>, start: nat)
    ensures TotalSize(classes, ks + [k]) == TotalSize(classes, ks) + classes.stateSize(k)
    ensures var at := start + TotalSize(classes, ks);
      Unflatten(classes, name, ks + [k], flat, start)
        == Unflatten(classes, name, ks, flat, start) + [(name(k), Slice(flat, at, at + classes.stateSize(k)))]
  {
    assert (ks + [k])[..|ks|] == ks;
  }

  /** Walking one more state of a list without repeats updates at most that state. */
  lemma LoadedStep(classes: StateClasses, name: StateKind -> string, instances: map<StateKind, StateInstance>, order: seq<StateKind>, dump: map<string, seq<real>>, i: nat)
    requires i < |order| && Distinct(order) && order[i] in instances
    ensures Loaded(classes, name, instances, order[..i], dump)[order[i]] == instances[order[i]]
    ensures var k := order[i];
      Loaded(classes, name, instances, order[..i + 1], dump)
        == if classes.settable(k) && name(k) in dump
           then Loaded(classes, name, instances, order[..i], dump)[k := instances[k].(data := dump[name(k)])]
           else Loaded(classes, name, instances, order[..i], dump)
  {
    assert order[..i + 1] == order[..i] + [order[i]];
    assert order[i] !in order[..i];
  }

  lemma LoadedNothing(classes: StateClasses, name: StateKind -> string, instances: map<StateKind, StateInstance>, dump: map<string, seq<real>>)
    ensures Loaded(classes, name, instances, [], dump) == instances
  {
  }

  lemma ClearedStep(classes: StateClasses, instances: map<StateKind, StateInstance>, order: seq<StateKind>, i: nat)
    requires i < |order| && Distinct(order) && order[i] in instances
    ensures Cleared(classes, instances, order[..i])[order[i]] == instances[order[i]]
    ensures var k := order[i];
      Cleared(classes, instances, order[..i + 1])
        == if classes.cachingEnabled(k)
           then Cleared(classes, instances, order[..i])[k := instances[k].(hasCachedValue := false)]
           else Cleared(classes, instances, order[..i])
  {
    assert order[..i + 1] == order[..i] + [order[i]];
    assert order[i] !in order[..i];
  }

  lemma ClearedNothing(classes: StateClasses, instances: map<StateKind, StateInstance>)
    ensures Cleared(classes, instances, []) == instances
  {
  }
}

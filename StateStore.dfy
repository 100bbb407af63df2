/**
 * The loops over an object's ordered state map that the omnigibson and igibson `StatefulObject`
 * classes share word for word: filling the map in reverse list order, dumping, loading,
 * deserializing and clearing cached values. Each is proved against its specification function.
 */
module StateStore {
  import opened StateCatalogue
  import opened StateAssembly
  import opened StateBookkeeping
  import opened Slices

  /** `for state_type, params in reversed(state_types_and_params): states[state_type] = ...` */
  method FillStates(m: StateMap, list: seq<Entry>) returns (r: StateMap)
    requires m.Valid()
    ensures r == FillReversed(m, list)
    ensures r.Valid()
  {
    FillFacts(m, list);
    r := m;
    var i := |list|;
    assert list[..i] == list;
    while i > 0
      invariant 0 <= i <= |list|
      invariant FillReversed(r, list[..i]) == FillReversed(m, list)
    {
      i := i - 1;
      FillStep(r, list, i);
      r := Put(r, list[i].0, InstanceFor(list[i]));
    }
  }

  /** Steps 1 to 3 of `prepare_object_states`: collect the state types, then fill an empty map. */
  method PrepareStates(classes: StateClasses, abilities: Abilities) returns (m: StateMap)
    ensures m == PreparedStates(classes, abilities) && m.Valid()
  {
    var list := CollectStateTypes(classes, abilities);
    m := FillStates(EmptyStates, list);
  }

  /** The `non_kin` loop of `_dump_state`: each settable state's name and data, in map order. */
  method DumpStates(classes: StateClasses, name: StateKind -> string, m: StateMap) returns (nonKin: seq<(string, seq<real>)>)
    requires m.Valid()
    ensures nonKin == Dumped(classes, name, m.instances, m.order)
  {
    nonKin := [];
    var i := 0;
    while i < |m.order|
      invariant i <= |m.order|
      invariant nonKin == Dumped(classes, name, m.instances, m.order[..i])
    {
      var k := m.order[i];
      DumpedStep(classes, name, m.instances, m.order, i);
      if classes.settable(k) {
        nonKin := nonKin + [(name(k), m.instances[k].data)];
      }
      i := i + 1;
    }
    assert m.order[..i] == m.order;
  }

  /** The loop of `_load_state` over the states in map order, with the warnings it logs. */
  method LoadStates(classes: StateClasses, name: StateKind -> string, m: StateMap, nonKin: map<string, seq<real>>)
    returns (instances: map<StateKind, StateInstance>, logged: seq<string>)
    requires m.Valid()
    ensures instances == Loaded(classes, name, m.instances, m.order, nonKin)
    ensures logged == MissingWarnings(classes, name, m.order, nonKin)
    ensures StateMap(m.order, instances).Valid()
  {
    instances := m.instances;
    logged := [];
    var i := 0;
    assert m.order[..0] == [];
    LoadedNothing(classes, name, m.instances, nonKin);
    while i < |m.order|
      invariant i <= |m.order|
      invariant instances == Loaded(classes, name, m.instances, m.order[..i], nonKin)
      invariant logged == MissingWarnings(classes, name, m.order[..i], nonKin)
    {
      var k := m.order[i];
      LoadedStep(classes, name, m.instances, m.order, nonKin, i);
      MissingWarningsStep(classes, name, m.order, nonKin, i);
      if classes.settable(k) {
        if name(k) in nonKin {
          instances := instances[k := instances[k].(data := nonKin[name(k)])];
        } else {
          logged := logged + [MissingWarning(name, k)];
        }
      }
      i := i + 1;
    }
    assert m.order[..i] == m.order;
    assert instances.Keys == m.instances.Keys;
  }

  /**
   * The `non_kin` loop of `_deserialize(flat)` once the base class has consumed `flat` up to
   * `start`: each settable state, in map order, reads the next `state_size` entries.
   */
  method DeserializeStates(classes: StateClasses, name: StateKind -> string, order: seq<StateKind>, flat: seq<real>, start: nat)
    returns (nonKin: seq<(string, seq<real>)>, idx: nat)
    ensures var ks := SettableStates(classes, order);
      nonKin == Unflatten(classes, name, ks, flat, start) && idx == start + TotalSize(classes, ks)
  {
    nonKin := [];
    idx := start;
    var i := 0;
    ghost var ks: seq<StateKind> := [];
    assert order[..0] == [];
    while i < |order|
      invariant i <= |order|
      invariant ks == SettableStates(classes, order[..i])
      invariant nonKin == Unflatten(classes, name, ks, flat, start)
      invariant idx == start + TotalSize(classes, ks)
    {
      var k := order[i];
      SettableStep(classes, order, i);
      if classes.settable(k) {
        nonKin, idx := ReadState(classes, name, k, flat, ks, start, nonKin, idx);
        ks := ks + [k];
      } else {
        assert ks + [] == ks;
      }
      i := i + 1;
    }
    assert order[..i] == order;
  }

  /** One settable state of the `_deserialize` loop: its name and the next `state_size` entries. */
  method ReadState(classes: StateClasses, name: StateKind -> string, k: StateKind, flat: seq<real>,
                   ghost ks: seq<StateKind>, ghost start: nat, nonKin: seq<(string, seq<real>)>, idx: nat)
    returns (nonKin': seq<(string, seq<real>)>, idx': nat)
    requires nonKin == Unflatten(classes, name, ks, flat, start) && idx == start + TotalSize(classes, ks)
    ensures nonKin' == Unflatten(classes, name, ks + [k], flat, start)
    ensures idx' == start + TotalSize(classes, ks + [k])
  {
    UnflattenStep(classes, name, ks, k, flat, start);
    nonKin' := nonKin + [(name(k), Slice(flat, idx, idx + classes.stateSize(k)))];
    idx' := idx + classes.stateSize(k);
  }

  /** The loop of `clear_cached_states`: every caching-enabled state drops its cached value. */
  method ClearStates(classes: StateClasses, m: StateMap) returns (instances: map<StateKind, StateInstance>)
    requires m.Valid()
    ensures instances == Cleared(classes, m.instances, m.order)
    ensures StateMap(m.order, instances).Valid()
  {
    instances := m.instances;
    var i := 0;
    assert m.order[..0] == [];
    ClearedNothing(classes, m.instances);
    while i < |m.order|
      invariant i <= |m.order|
      invariant instances == Cleared(classes, m.instances, m.order[..i])
    {
      var k := m.order[i];
      ClearedStep(classes, m.instances, m.order, i);
      if classes.cachingEnabled(k) {
        instances := instances[k := instances[k].(hasCachedValue := false)];
      }
      i := i + 1;
    }
    assert m.order[..i] == m.order;
    assert instances.Keys == m.instances.Keys;
  }
}

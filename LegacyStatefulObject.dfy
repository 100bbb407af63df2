/**
 * `StatefulObject` of igibson/objects/stateful_object.py, the predecessor of the omnigibson class:
 * the same ordered state map, but a single steam emitter and texture-change APIs created on load,
 * and an `update_visuals` that reads every state's plain value and sets the emitter once.
 *
 * As in the omnigibson model, an emitter is its `enabled` flag, texture-change APIs are the fact
 * that they were requested, a state's run-time value is a parameter, and a logged warning is
 * appended to `warnings`.
 */
module LegacyStatefulObjects {
  import opened Wrappers
  import opened StateCatalogue
  import opened StateAssembly
  import opened StateBookkeeping
  import opened StateStore

  /** Some state of `order` is a steam state whose value is on. */
  predicate SteamOn(order: seq<StateKind>, value: StateKind -> bool) {
    exists k :: k in order && k in SteamStates() && value(k)
  }

  class StatefulObject {
    /** The behaviour of the state classes, which this model does not define. */
    const classes: StateClasses
    /** `_abilities` */
    const abilities: Abilities
    /** `get_state_name`: the key a state's data goes under in a dump. */
    const name: StateKind -> string
    /** `_states`: None until the states are initialised. */
    var states: Option<StateMap>
    /** `_emitter`: None until the steam APIs exist, then its `enabled` attribute. */
    var emitter: Option<bool>
    /** Whether `_create_texture_change_apis` has run. */
    var textureApis: bool
    /** The warnings logged so far. */
    var warnings: seq<string>

    ghost predicate Valid()
      reads this
    {
      states.Some? ==> states.value.Valid()
    }

    /** `__init__` with an abilities dict: the states are prepared from it; no emitter exists yet. */
    constructor (classes: StateClasses, abilities: Abilities)
      ensures Valid()
      ensures this.classes == classes && this.abilities == abilities && name == StateName && Injective(name)
      ensures states == Some(PreparedStates(classes, abilities))
      ensures emitter == None && !textureApis && warnings == []
    {
      this.classes := classes;
      this.abilities := abilities;
      name := StateName;
      states := None;
      emitter := None;
      textureApis := false;
      warnings := [];
      new;
      StateNameIsInjective();
      PrepareObjectStates(Some(abilities));
    }

    /** `initialize_states`: an empty ordered map replaces whatever states there were. */
    method InitializeStates()
      modifies this`states
      ensures states == Some(EmptyStates)
      ensures emitter == old(emitter) && textureApis == old(textureApis) && warnings == old(warnings)
    {
      states := Some(EmptyStates);
    }

    /** `prepare_object_states(abilities)`; None stands for no abilities. */
    method PrepareObjectStates(abilities: Option<Abilities>)
      requires Valid()
      modifies this`states
      ensures Valid()
      ensures states == Some(PreparedStates(classes, if abilities.None? then [] else abilities.value))
      ensures emitter == old(emitter) && textureApis == old(textureApis) && warnings == old(warnings)
    {
      var given := if abilities.None? then [] else abilities.value;
      InitializeStates();
      var filled := PrepareStates(classes, given);
      states := Some(filled);
    }

    /**
     * `add_state(state)`: fails when the states are not initialised or already hold a state of
     * that class; otherwise the new state goes last and nothing else changes.
     */
    method AddState(state: StateInstance) returns (r: Result<(), string>)
      requires Valid()
      modifies this
      ensures Valid()
      ensures old(states).None? ==>
        r == Failure("Cannot add state since states have not been initialized yet!") && states == old(states)
      ensures old(states).Some? && state.kind in old(states).value.instances ==>
        r == Failure("State " + name(state.kind) + " has already been added to this object!") && states == old(states)
      ensures old(states).Some? && state.kind !in old(states).value.instances ==>
        r.Success? && states.Some?
        && states.value.order == old(states).value.order + [state.kind]
        && states.value.instances == old(states).value.instances[state.kind := state]
      ensures emitter == old(emitter) && textureApis == old(textureApis) && warnings == old(warnings)
    {
      if states.None? {
        return Failure("Cannot add state since states have not been initialized yet!");
      }
      if state.kind in states.value.instances {
        return Failure("State " + name(state.kind) + " has already been added to this object!");
      }
      states := Some(Put(states.value, state.kind, state));
      r := Success(());
    }

    /**
     * `_post_load`: texture-change APIs when some state changes texture, and a disabled steam
     * emitter when some state is a steam state.
     */
    method PostLoad()
      requires states.Some?
      modifies this
      ensures states == old(states) && warnings == old(warnings)
      ensures textureApis <==> old(textureApis) || exists k :: k in states.value.instances && k in TextureChangeStates()
      ensures emitter == if exists k :: k in states.value.instances && k in SteamStates() then Some(false) else old(emitter)
    {
      var keys := states.value.instances.Keys;
      Overlap(keys, TextureChangeStates());
      Overlap(keys, SteamStates());
      if keys * TextureChangeStates() != {} {
        textureApis := true;
      }
      if keys * SteamStates() != {} {
        emitter := Some(false);
      }
    }

    /**
     * `set_emitter_enabled(value)`: nothing happens without an emitter; otherwise it ends up
     * with `value`, written only when it differs. `wrote` reports a write.
     */
    method SetEmitterEnabled(value: bool) returns (wrote: bool)
      modifies this
      ensures emitter == if old(emitter).Some? then Some(value) else None
      ensures wrote <==> old(emitter).Some? && old(emitter).value != value
      ensures states == old(states) && textureApis == old(textureApis) && warnings == old(warnings)
    {
      wrote := false;
      if emitter.Some? && value != emitter.value {
        emitter := Some(value);
        wrote := true;
      }
    }

    /**
     * `update_visuals`, with `value(k)` standing for `get_value()` of state `k`: collects the
     * texture-change states that are on, enables the emitter exactly when some steam state is
     * on, and returns the state handed to `_update_texture_change`.
     */
    method UpdateVisuals(value: StateKind -> bool) returns (chosen: Option<StateKind>)
      requires states.Some?
      modifies this
      ensures states == old(states) && textureApis == old(textureApis) && warnings == old(warnings)
      ensures chosen == HighestPriority(ActiveTextureStates(states.value.order, value))
      ensures emitter == if old(emitter).Some? then Some(SteamOn(states.value.order, value)) else None
    {
      var order := states.value.order;
      var textureStates: seq<StateKind> := [];
      var emitterEnabled := false;
      var i := 0;
      while i < |order|
        invariant i <= |order|
        invariant textureStates == ActiveTextureStates(order[..i], value)
        invariant emitterEnabled == SteamOn(order[..i], value)
        invariant states == old(states) && emitter == old(emitter)
        invariant textureApis == old(textureApis) && warnings == old(warnings)
      {
        var k := order[i];
        ActiveTextureStatesStep(order, value, i);
        assert order[..i + 1] == order[..i] + [k];
        if k in TextureChangeStates() && value(k) {
          textureStates := textureStates + [k];
        }
        if k in SteamStates() {
          emitterEnabled := emitterEnabled || value(k);
        }
        i := i + 1;
      }
      assert order[..i] == order;
      var _ := SetEmitterEnabled(emitterEnabled);
      chosen := HighestPriority(textureStates);
    }

    /** The `non_kin` part of `_dump_state`: each settable state's name and data, in map order. */
    method DumpState() returns (nonKin: seq<(string, seq<real>)>)
      requires Valid() && states.Some?
      ensures nonKin == Dumped(classes, name, states.value.instances, states.value.order)
    {
      nonKin := DumpStates(classes, name, states.value);
    }

    /**
     * `_load_state` for the `non_kin` dump: each settable state whose name is in the dump takes
     * the dumped data, and each one missing from it logs a warning.
     */
    method LoadState(nonKin: map<string, seq<real>>)
      requires Valid() && states.Some?
      modifies this
      ensures Valid()
      ensures states == Some(StateMap(old(states).value.order,
                         Loaded(classes, name, old(states).value.instances, old(states).value.order, nonKin)))
      ensures warnings == old(warnings) + MissingWarnings(classes, name, old(states).value.order, nonKin)
      ensures emitter == old(emitter) && textureApis == old(textureApis)
    {
      var m := states.value;
      var instances, logged := LoadStates(classes, name, m, nonKin);
      states := Some(StateMap(m.order, instances));
      warnings := warnings + logged;
    }

    /**
     * The `non_kin` part of `_deserialize(flat)` after the base class has consumed `flat` up to
     * `start`: each settable state, in map order, reads the next `state_size` entries.
     */
    method Deserialize(flat: seq<real>, start: nat) returns (nonKin: seq<(string, seq<real>)>, idx: nat)
      requires Valid() && states.Some?
      ensures var ks := SettableStates(classes, states.value.order);
        nonKin == Unflatten(classes, name, ks, flat, start) && idx == start + TotalSize(classes, ks)
    {
      nonKin, idx := DeserializeStates(classes, name, states.value.order, flat, start);
    }

    /**
     * `clear_cached_states`: nothing to do when the states are None or empty; otherwise every
     * caching-enabled state drops its cached value.
     */
    method ClearCachedStates()
      requires Valid()
      modifies this
      ensures Valid()
      ensures old(states).None? ==> states == old(states)
      ensures old(states).Some? ==>
        states == Some(StateMap(old(states).value.order,
                                Cleared(classes, old(states).value.instances, old(states).value.order)))
      ensures emitter == old(emitter) && textureApis == old(textureApis) && warnings == old(warnings)
    {
      if states.None? {
        return;
      }
      var m := states.value;
      if m.instances == map[] {
        assert Cleared(classes, m.instances, m.order) == m.instances;
        return;
      }
      var instances := ClearStates(classes, m);
      states := Some(StateMap(m.order, instances));
    }
  }
}

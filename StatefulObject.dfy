/**
 * `StatefulObject` of omnigibson/objects/stateful_object.py: an object that owns an ordered map of
 * object states and, for steam and fire effects, a set of particle emitters.
 *
 * The simulator-side parts are abstracted: an emitter is its `enabled` flag, a state's run-time
 * values arrive as `Readings`, a logged warning is appended to `warnings`, and the link the heat
 * source state sits on and the object's link names are parameters of `PostLoad`.
 */
module StatefulObjects {
  import opened Wrappers
  import opened StateCatalogue
  import opened StateAssembly
  import opened StateBookkeeping
  import opened Slices
  import opened StateStore

  /** `EmitterType`: the particle emitters an object can own. */
  datatype EmitterType = Steam | Fire

  /** The states whose values drive an emitter: `get_steam_states()` or `get_fire_states()`. */
  function Category(t: EmitterType): set<StateKind> {
    match t
    case Steam => SteamStates()
    case Fire => FireStates()
  }

  /**
   * What the states report while `update_visuals` runs: `value(k)` is `get_value()` of state `k`
   * (for `HeatSourceOrSink`, the first component of the pair it returns), and `soakedBySystem`
   * holds `Soaked.get_value(system)` for each absorbed fluid system, in order.
   */
  datatype Readings = Readings(value: StateKind -> bool, soakedBySystem: seq<bool>)

  /** Some absorbed fluid system reports the object as soaked. */
  predicate AnySoaked(r: Readings) {
    exists i :: 0 <= i < |r.soakedBySystem| && r.soakedBySystem[i]
  }

  /** Whether `update_visuals` counts texture-change state `k` as on. */
  predicate TextureActive(r: Readings, k: StateKind) {
    if k == Soaked then AnySoaked(r) else r.value(k)
  }

  /** `emitter_enabled[t] |= value(k)` when `k` drives emitter `t`. */
  function StepFlag(f: map<EmitterType, bool>, t: EmitterType, k: StateKind, r: Readings): map<EmitterType, bool> {
    if k in Category(t) then f[t := (t in f && f[t]) || r.value(k)] else f
  }

  /** The `emitter_enabled` defaultdict once `update_visuals` has walked the states of `order`. */
  function Flags(order: seq<StateKind>, r: Readings): map<EmitterType, bool>
    decreases |order|
  {
    if order == [] then map[]
    else
      var k := order[|order| - 1];
      StepFlag(StepFlag(Flags(order[..|order| - 1], r), Steam, k, r), Fire, k, r)
  }

  /**
   * An emitter type has a flag exactly when some state of its category was walked, and the flag
   * is the OR of those states' values.
   */
  lemma {:induction false} FlagsMeaning(order: seq<StateKind>, r: Readings, t: EmitterType)
    ensures t in Flags(order, r) <==> exists k :: k in order && k in Category(t)
    ensures t in Flags(order, r) ==> (Flags(order, r)[t] <==> exists k :: k in order && k in Category(t) && r.value(k))
    decreases |order|
  {
    if order != [] {
      var front := order[..|order| - 1];
      var k := order[|order| - 1];
      assert order == front + [k];
      FlagsMeaning(front, r, t);
    }
  }

  lemma FlagsStep(order: seq<StateKind>, r: Readings, i: nat)
    requires i < |order|
    ensures Flags(order[..i + 1], r) == StepFlag(StepFlag(Flags(order[..i], r), Steam, order[i], r), Fire, order[i], r)
  {
    assert order[..i + 1][..i] == order[..i];
  }

  /** The scan `any(soaked.get_value(system) for system in absorbed systems)`. */
  method AnyFluidSoaked(r: Readings) returns (soaked: bool)
    ensures soaked <==> AnySoaked(r)
  {
    soaked := false;
    var s := 0;
    while s < |r.soakedBySystem| && !soaked
      invariant s <= |r.soakedBySystem|
      invariant !soaked ==> forall q :: 0 <= q < s ==> !r.soakedBySystem[q]
      invariant soaked ==> AnySoaked(r)
    {
      if r.soakedBySystem[s] {
        soaked := true;
      }
      s := s + 1;
    }
  }

  /** The emitters after `set_emitter_enabled(t, flags[t])` for every flag: existing emitters take their flag, none is created. */
  function WithFlags(emitters: map<EmitterType, bool>, flags: map<EmitterType, bool>): (e: map<EmitterType, bool>)
    ensures e.Keys == emitters.Keys
  {
    map t | t in emitters :: if t in flags then flags[t] else emitters[t]
  }

  /** Setting a smaller set of flags first changes nothing once the larger set is applied. */
  lemma WithFlagsAgain(emitters: map<EmitterType, bool>, before: map<EmitterType, bool>, flags: map<EmitterType, bool>)
    requires before.Keys <= flags.Keys
    ensures WithFlags(WithFlags(emitters, before), flags) == WithFlags(emitters, flags)
  {
  }

  /** The emitters `_post_load` creates, given the object's states, the heat source's link and the object's links. */
  function CreatedEmitters(keys: set<StateKind>, heatSourceLink: string, links: set<string>): (c: set<EmitterType>)
    ensures Steam in c <==> exists k :: k in keys && k in SteamStates()
    ensures Fire in c <==> (exists k :: k in keys && k in FireStates()) && heatSourceLink in links
  {
    Overlap(keys, SteamStates());
    Overlap(keys, FireStates());
    var steam: set<EmitterType> := if keys * SteamStates() != {} then {Steam} else {};
    var fire: set<EmitterType> := if keys * FireStates() != {} && heatSourceLink in links then {Fire} else {};
    assert HeatSourceOrSink in FireStates() && Heated in SteamStates();
    steam + fire
  }

  /** Whether texture-change state `k` counts as on; `Soaked` asks every absorbed fluid system. */
  method TextureOn(r: Readings, k: StateKind) returns (on: bool)
    ensures on == TextureActive(r, k)
  {
    if k == Soaked {
      on := AnyFluidSoaked(r);
    } else {
      on := r.value(k);
    }
  }

  /**
   * The `emitter_enabled[...] |= value` updates for one state; `flagKeys` lists the flagged
   * emitter types in the order the defaultdict first saw them.
   */
  method RaiseFlags(flags: map<EmitterType, bool>, flagKeys: seq<EmitterType>, k: StateKind, r: Readings)
    returns (flags': map<EmitterType, bool>, flagKeys': seq<EmitterType>)
    requires forall t :: t in flags <==> t in flagKeys
    ensures flags' == StepFlag(StepFlag(flags, Steam, k, r), Fire, k, r)
    ensures forall t :: t in flags' <==> t in flagKeys'
    ensures flags.Keys <= flags'.Keys
  {
    flags', flagKeys' := flags, flagKeys;
    if k in SteamStates() {
      if Steam !in flags' {
        flagKeys' := flagKeys' + [Steam];
      }
      flags' := flags'[Steam := (Steam in flags' && flags'[Steam]) || r.value(k)];
    }
    if k in FireStates() {
      if Fire !in flags' {
        flagKeys' := flagKeys' + [Fire];
      }
      flags' := flags'[Fire := (Fire in flags' && flags'[Fire]) || r.value(k)];
    }
  }

  class StatefulObject {
    /** The behaviour of the state classes, which this model does not define. */
    const classes: StateClasses
    /** `_abilities` */
    const abilities: Abilities
    /** `get_state_name`: the key a state's data goes under in a dump. */
    const name: StateKind -> string
    /** `_states`: None until the states are initialised. */
    var states: Option<StateMap>
    /** `_emitters`, each emitter reduced to its `enabled` attribute. */
    var emitters: map<EmitterType, bool>
    /** The warnings logged so far. */
    var warnings: seq<string>

    ghost predicate Valid()
      reads this
    {
      states.Some? ==> states.value.Valid()
    }

    /** `__init__` with an abilities dict: the states are prepared from it; no emitter exists yet. */
    constructor (classes: StateClasses, abilities: Abilities)
      ensures Valid()
      ensures this.classes == classes && this.abilities == abilities && name == StateName && Injective(name)
      ensures states == Some(PreparedStates(classes, abilities))
      ensures emitters == map[] && warnings == []
    {
      this.classes := classes;
      this.abilities := abilities;
      name := StateName;
      states := None;
      emitters := map[];
      warnings := [];
      new;
      StateNameIsInjective();
      PrepareObjectStates(Some(abilities));
    }

    /** `initialize_states`: an empty ordered map replaces whatever states there were. */
    method InitializeStates()
      modifies this`states
      ensures states == Some(EmptyStates)
      ensures emitters == old(emitters) && warnings == old(warnings)
    {
      states := Some(EmptyStates);
    }

    /** `prepare_object_states(abilities)`; None stands for no abilities. */
    method PrepareObjectStates(abilities: Option<Abilities>)
      requires Valid()
      modifies this`states
      ensures Valid()
      ensures states == Some(PreparedStates(classes, if abilities.None? then [] else abilities.value))
      ensures emitters == old(emitters) && warnings == old(warnings)
    {
      var given := if abilities.None? then [] else abilities.value;
      InitializeStates();
      var filled := PrepareStates(classes, given);
      states := Some(filled);
    }

    /**
     * `add_state(state)`: fails when the states are not initialised or already hold a state of
     * that class; otherwise the new state goes last and nothing else changes.
     */
    method AddState(state: StateInstance) returns (r: Result<(), string>)
      requires Valid()
      modifies this
      ensures Valid()
      ensures old(states).None? ==>
        r == Failure("Cannot add state since states have not been initialized yet!") && states == old(states)
      ensures old(states).Some? && state.kind in old(states).value.instances ==>
        r == Failure("State " + name(state.kind) + " has already been added to this object!") && states == old(states)
      ensures old(states).Some? && state.kind !in old(states).value.instances ==>
        r.Success? && states.Some?
        && states.value.order == old(states).value.order + [state.kind]
        && states.value.instances == old(states).value.instances[state.kind := state]
      ensures emitters == old(emitters) && warnings == old(warnings)
    {
      if states.None? {
        return Failure("Cannot add state since states have not been initialized yet!");
      }
      if state.kind in states.value.instances {
        return Failure("State " + name(state.kind) + " has already been added to this object!");
      }
      states := Some(Put(states.value, state.kind, state));
      r := Success(());
    }

    /**
     * `set_emitter_enabled(t, value)`: nothing happens without an emitter of that type; otherwise
     * the emitter ends up with `value`, written only when it differs. `wrote` reports a write.
     */
    method SetEmitterEnabled(t: EmitterType, value: bool) returns (wrote: bool)
      modifies this
      ensures t in old(emitters) ==> emitters == old(emitters)[t := value]
      ensures t !in old(emitters) ==> emitters == old(emitters)
      ensures wrote <==> t in old(emitters) && old(emitters)[t] != value
      ensures states == old(states) && warnings == old(warnings)
    {
      wrote := false;
      if t !in emitters {
        return;
      }
      if value != emitters[t] {
        emitters := emitters[t := value];
        wrote := true;
      }
    }

    /** The loop `for emitter_type in emitter_enabled` inside `update_visuals`. */
    method EnableAll(flagKeys: seq<EmitterType>, flags: map<EmitterType, bool>)
      requires forall t :: t in flags <==> t in flagKeys
      modifies this
      ensures emitters == WithFlags(old(emitters), flags)
      ensures states == old(states) && warnings == old(warnings)
    {
      var j := 0;
      while j < |flagKeys|
        invariant j <= |flagKeys|
        invariant emitters.Keys == old(emitters).Keys
        invariant forall t :: t in emitters ==> emitters[t] == if t in flagKeys[..j] then flags[t] else old(emitters)[t]
        invariant states == old(states) && warnings == old(warnings)
      {
        var _ := SetEmitterEnabled(flagKeys[j], flags[flagKeys[j]]);
        assert flagKeys[..j + 1] == flagKeys[..j] + [flagKeys[j]];
        j := j + 1;
      }
      assert flagKeys[..j] == flagKeys;
    }

    /**
     * `update_visuals`: walks the states in map order, collecting the active texture-change
     * states and OR-ing each emitter's flag, and sets every flagged emitter after each state.
     * Returns the state handed to `_update_texture_change`.
     */
    method UpdateVisuals(readings: Readings) returns (chosen: Option<StateKind>)
      requires states.Some?
      modifies this
      ensures states == old(states) && warnings == old(warnings)
      ensures chosen == HighestPriority(ActiveTextureStates(states.value.order, k => TextureActive(readings, k)))
      ensures emitters == WithFlags(old(emitters), Flags(states.value.order, readings))
    {
      var order := states.value.order;
      var active := k => TextureActive(readings, k);
      var textureStates: seq<StateKind> := [];
      var flags: map<EmitterType, bool> := map[];
      var flagKeys: seq<EmitterType> := [];
      var i := 0;
      while i < |order|
        invariant i <= |order|
        invariant textureStates == ActiveTextureStates(order[..i], active)
        invariant flags == Flags(order[..i], readings)
        invariant forall t :: t in flags <==> t in flagKeys
        invariant emitters == WithFlags(old(emitters), flags)
        invariant states == old(states) && warnings == old(warnings)
      {
        var k := order[i];
        ActiveTextureStatesStep(order, active, i);
        FlagsStep(order, readings, i);
        if k in TextureChangeStates() {
          var on := TextureOn(readings, k);
          if on {
            textureStates := textureStates + [k];
          }
        }
        var before := flags;
        flags, flagKeys := RaiseFlags(flags, flagKeys, k, readings);
        EnableAll(flagKeys, flags);
        WithFlagsAgain(old(emitters), before, flags);
        i := i + 1;
      }
      assert order[..i] == order;
      chosen := HighestPriority(textureStates);
    }

    /**
     * `_post_load`: a steam emitter when some state is a steam state, a fire emitter when some
     * state is a fire state and the heat source's link is one of the object's links. A created
     * emitter starts disabled.
     */
    method PostLoad(heatSourceLink: string, links: set<string>)
      requires states.Some?
      modifies this
      ensures states == old(states) && warnings == old(warnings)
      ensures var created := CreatedEmitters(states.value.instances.Keys, heatSourceLink, links);
        emitters == map t | t in old(emitters).Keys + created :: if t in created then false else old(emitters)[t]
    {
      var keys := states.value.instances.Keys;
      if keys * SteamStates() != {} {
        emitters := emitters[Steam := false];
      }
      if keys * FireStates() != {} && heatSourceLink in links {
        emitters := emitters[Fire := false];
      }
    }

    /** The `non_kin` part of `_dump_state`: each settable state's name and data, in map order. */
    method DumpState() returns (nonKin: seq<(string, seq<real>)>)
      requires Valid() && states.Some?
      ensures nonKin == Dumped(classes, name, states.value.instances, states.value.order)
    {
      nonKin := DumpStates(classes, name, states.value);
    }

    /**
     * `_load_state` for the `non_kin` dump: each settable state whose name is in the dump takes
     * the dumped data, and each one missing from it logs a warning.
     */
    method LoadState(nonKin: map<string, seq<real>>)
      requires Valid() && states.Some?
      modifies this
      ensures Valid()
      ensures states == Some(StateMap(old(states).value.order,
                         Loaded(classes, name, old(states).value.instances, old(states).value.order, nonKin)))
      ensures warnings == old(warnings) + MissingWarnings(classes, name, old(states).value.order, nonKin)
      ensures emitters == old(emitters)
    {
      var m := states.value;
      var instances, logged := LoadStates(classes, name, m, nonKin);
      states := Some(StateMap(m.order, instances));
      warnings := warnings + logged;
    }

    /**
     * The `non_kin` part of `_deserialize(flat)` after the base class has consumed `flat` up to
     * `start`: each settable state, in map order, reads the next `state_size` entries.
     */
    method Deserialize(flat: seq<real>, start: nat) returns (nonKin: seq<(string, seq<real>)>, idx: nat)
      requires Valid() && states.Some?
      ensures var ks := SettableStates(classes, states.value.order);
        nonKin == Unflatten(classes, name, ks, flat, start) && idx == start + TotalSize(classes, ks)
    {
      nonKin, idx := DeserializeStates(classes, name, states.value.order, flat, start);
    }

    /**
     * `clear_cached_states`: nothing to do when the states are None or empty; otherwise every
     * caching-enabled state drops its cached value.
     */
    method ClearCachedStates()
      requires Valid()
      modifies this
      ensures Valid()
      ensures old(states).None? ==> states == old(states)
      ensures old(states).Some? ==>
        states == Some(StateMap(old(states).value.order,
                                Cleared(classes, old(states).value.instances, old(states).value.order)))
      ensures emitters == old(emitters) && warnings == old(warnings)
    {
      if states.None? {
        return;
      }
      var m := states.value;
      if m.instances == map[] {
        assert Cleared(classes, m.instances, m.order) == m.instances;
        return;
      }
      var instances := ClearStates(classes, m);
      states := Some(StateMap(m.order, instances));
    }
  }
}

# Object states, state assembly and teleoperation bookkeeping

This project models the bookkeeping core of the simulator's object-state system in Dafny and
proves properties of it.

- **The object-state catalogue** (`omnigibson/object_states/factory.py`), modules
  `StateCatalogue` and `DependencyOrder`. It covers:
  - the full set of state kinds;
  - the ability-to-states table;
  - the default, fire, steam and texture-change sets;
  - the texture-change priority table;
  - name lookup in both directions;
  - the fluid-source filter;
  - the guarded state constructor;
  - the dependency graph and an order of the states in which each one comes after its
    dependencies.
- **State assembly on an object** (`prepare_object_states` in both `stateful_object.py` files),
  modules `StateAssembly` and `StateStore`. The default and ability states are collected into a
  list. The list is closed under required dependencies while it is walked. The walk extends the
  list it iterates. Then an ordered map is filled by walking the list backwards.
- **The per-object bookkeeping of saved state**, modules `StateBookkeeping` and `StateStore`:
  - the winning texture-change state;
  - the dump and its load;
  - deserialization with a running index;
  - clearing of cached values.
- **The two `StatefulObject` classes**, the omnigibson one (module `StatefulObjects`) and its
  igibson predecessor (module `LegacyStatefulObjects`). Each is a Dafny class whose fields are
  the object's state map, its emitters and its log.
- **`XFormPrim`** (module `XFormPrims`):
  - the flat pose state;
  - the scalar-first and scalar-last quaternion reorders;
  - the writes of `set_local_pose`, the `scale` setter and `set_default_state`.
- **`ui_utils.py`**, modules `UiUtils` and `RobotTeleop`:
  - the keyboard callback table;
  - `choose_from_options`;
  - `KeyboardRobotController`: controller offsets, keypress bindings, the keyboard event handler
    and the action vector of a teleoperation step.

Behaviour defined in state classes outside these files is a parameter, the `StateClasses`
datatype of functions. It covers:

- `get_dependencies` and `get_optional_dependencies`;
- fluid-source subclassing;
- `settable` and `state_size`;
- caching.

Functions of this kind fall into two groups:

- Loops that update variables are `method`s. Each is proved against a specification function,
  and the lemmas about that function state what the source promises.
- Objects whose methods update fields are `class`es, with `modifies` clauses.

Three behaviours of the code that the model keeps as they are:

- An unknown ability yields no states, with no error (`get_states_for_ability`,
  `omnigibson/object_states/factory.py:152-155`).
- A state listed more than once keeps the params of its *earliest* list entry. The map is filled
  by walking the list in reverse, so the earliest entry is written last and wins.
- The dependency order breaks ties by catalogue order. Its contract is that of the sort the code
  calls: every state appears exactly once, after all of its dependencies, and an order exists
  exactly when the graph admits one.

## Model

| member | source | states |
|---|---|---|
| StateCatalogue.CatalogueCoversTables | omnigibson/object_states/factory.py:7-106 | every state of the ability table and of the default, fire, steam and texture-change sets is in the catalogue |
| StateCatalogue.AllStatesDistinct | omnigibson/object_states/factory.py:7-43 | the catalogue's listing holds no state twice |
| StateCatalogue.EveryKindCatalogued | omnigibson/object_states/factory.py:7-43 | every state kind is in the catalogue |
| StateCatalogue.TextureChangePriority | omnigibson/object_states/factory.py:108-114 | the priority table's keys are exactly the texture-change states, and no two of them share a rank |
| StateCatalogue.StatesForAbility | omnigibson/object_states/factory.py:152-155 | a known ability gives its table entry; the result is empty exactly when the ability is unknown |
| StateCatalogue.StateNameInjective | omnigibson/object_states/factory.py:143-145 | two states with the same class name are the same state |
| StateCatalogue.FindByName | omnigibson/object_states/factory.py:148-149 | `next` over the matching states: a found state is in the list and has the name; nothing is found exactly when no state in the list has it |
| StateCatalogue.StateNameRoundTrip | omnigibson/object_states/factory.py:143-149 | looking up a state's name gives the state back; a lookup fails exactly when no state has that name |
| StateCatalogue.FilterStates | omnigibson/object_states/factory.py:136-137 | the list comprehension keeps exactly the listed states that meet the condition |
| StateCatalogue.FluidSourceStates | omnigibson/object_states/factory.py:136-137 | the result is exactly the fluid-source states, all of them catalogued |
| StateCatalogue.NewStateInstance | omnigibson/object_states/factory.py:177 | a new state object has the given class and params and no cached value |
| StateCatalogue.ObjectStateInstance | omnigibson/object_states/factory.py:158-177 | construction succeeds exactly for an object-state class; the instance has that class, and missing params become empty params |
| StateCatalogue.Overlap | omnigibson/objects/stateful_object.py:206-209 | a non-empty intersection of two state sets means some state is in both, and back |
| DependencyOrder.DependencyGraph | omnigibson/object_states/factory.py:180-185 | the graph has a node for every catalogued state, and its edges are the state's required and optional dependencies |
| DependencyOrder.FirstReady | omnigibson/object_states/factory.py:188-192 | a found index names a pending state whose dependencies are all placed; none is found exactly when no pending state is ready |
| DependencyOrder.RemoveAt | omnigibson/object_states/factory.py:188-192 | removing one element keeps every other element and adds none |
| DependencyOrder.ScheduleSound | omnigibson/object_states/factory.py:188-192 | a successful construction extends the placed states with every pending state, each once and after its dependencies |
| DependencyOrder.DependencyOrderSound | omnigibson/object_states/factory.py:188-192 | a computed order lists every catalogued state exactly once, each after all of its required and optional dependencies |
| DependencyOrder.DependencyOrderComplete | omnigibson/object_states/factory.py:188-192 | when any order satisfies every dependency, the construction finds one |
| DependencyOrder.DependencyOrderExists | omnigibson/object_states/factory.py:188-192 | the construction succeeds exactly when the dependencies admit an order |
| DependencyOrder.CycleBlocksOrder | omnigibson/object_states/factory.py:180-192 | no order satisfies the dependencies along a cycle of the graph |
| DependencyOrder.CycleHasNoOrder | omnigibson/object_states/factory.py:188-192 | with a dependency cycle the construction fails, where the topological sort raises |
| StateAssembly.Kinds | omnigibson/objects/stateful_object.py:192-196 | the state classes of the list, position by position |
| StateAssembly.WithParams | omnigibson/objects/stateful_object.py:185-189 | every state of the list is paired with the given params, in order |
| StateAssembly.SeedStateTypes | omnigibson/objects/stateful_object.py:185-189 | the loop builds the default states with empty params, then each ability's states with its params |
| StateAssembly.SeedsCover | omnigibson/objects/stateful_object.py:185-189 | the collected list holds every default state with empty params, and every state of every declared ability with that ability's params |
| StateAssembly.AddMissing | omnigibson/objects/stateful_object.py:194-196 | only dependencies not yet listed are appended, with empty params, keeping the list as a prefix; afterwards a state is listed exactly when it was listed before or is a dependency |
| StateAssembly.AppendMissing | omnigibson/objects/stateful_object.py:194-196 | the inner loop over a state's dependencies computes exactly `AddMissing` |
| StateAssembly.Close | omnigibson/objects/stateful_object.py:191-196 | the dependency walk only ever extends the list |
| StateAssembly.CollectStateTypes | omnigibson/objects/stateful_object.py:185-196 | the loop over a list that grows while it is walked computes the closed list |
| StateAssembly.PreparedListFacts | omnigibson/objects/stateful_object.py:191-196 | the walk keeps the collected states as a prefix; every required dependency of every entry is listed; each entry it adds is a required dependency of an earlier entry |
| StateAssembly.FirstIndex | omnigibson/objects/stateful_object.py:195-201 | the first list position holding a given state |
| StateAssembly.Put | omnigibson/objects/stateful_object.py:200-201 | an ordered-dict assignment keeps the map well formed, sets the key, appends a new key last, and keeps an existing key's place |
| StateAssembly.PreparedKeys | omnigibson/objects/stateful_object.py:199-201 | the filled map is well formed, and its keys are exactly the listed states |
| StateAssembly.PreparedStatesCover | omnigibson/objects/stateful_object.py:185-201 | the object gets every default state and every state of every declared ability |
| StateAssembly.PreparedStatesClosed | omnigibson/objects/stateful_object.py:191-201 | every required dependency of every prepared state is prepared too |
| StateAssembly.PreparedStatesParams | omnigibson/objects/stateful_object.py:188-201 | each key holds one instance, built from the state's earliest list entry |
| StateAssembly.PreparedStatesPulledIn | omnigibson/objects/stateful_object.py:191-201 | a prepared state that neither the defaults nor the abilities named has empty params and is a required dependency of another prepared state, never only an optional one |
| StateAssembly.PulledInComesFirst | omnigibson/objects/stateful_object.py:195-201 | a state the walk adds goes into the map before the state that required it |
| StateStore.FillStates | omnigibson/objects/stateful_object.py:200-201 | the reversed loop of assignments computes the reversed fill and keeps the map well formed |
| StateStore.PrepareStates | omnigibson/objects/stateful_object.py:185-201 | collecting, then filling an empty map, gives the prepared state map |
| StateStore.DumpStates | omnigibson/objects/stateful_object.py:397-409 | the loop records each settable state's name and data in map order |
| StateStore.LoadStates | omnigibson/objects/stateful_object.py:411-422 | the loop loads each settable state found in the dump, leaves every other state alone, and logs one warning per settable state missing from the dump |
| StateStore.ReadState | omnigibson/objects/stateful_object.py:444-450 | one settable state reads the next `state_size` entries and advances the index by that size |
| StateStore.DeserializeStates | omnigibson/objects/stateful_object.py:437-451 | the loop reads each settable state's slice in map order; the final index is the start plus the summed sizes of the settable states |
| StateStore.ClearStates | omnigibson/objects/stateful_object.py:453-459 | the loop drops the cached value of each caching-enabled state and touches no other state |
| StateBookkeeping.PriorityInjective | omnigibson/object_states/factory.py:108-114 | no two texture-change states share a priority |
| StateBookkeeping.ActiveTextureStates | omnigibson/objects/stateful_object.py:337-346 | the collected states are exactly the texture-change states of the map that are on |
| StateBookkeeping.HighestPriority | omnigibson/objects/stateful_object.py:357-358 | sorting by priority and taking the last: None exactly for no states; otherwise a listed state whose priority is the highest |
| StateBookkeeping.ChosenTextureState | omnigibson/objects/stateful_object.py:335-358 | the chosen state is None exactly when no texture-change state is on; otherwise it is an active texture-change state whose priority beats every other active one |
| StateBookkeeping.SettableStates | omnigibson/objects/stateful_object.py:403-404 | exactly the settable states of the map, in order |
| StateBookkeeping.Dumped | omnigibson/objects/stateful_object.py:397-409 | the dump has one entry per settable state, in map order, with that state's name and data |
| StateBookkeeping.AsDict | omnigibson/objects/stateful_object.py:397-409 | an ordered dict built from items has exactly the items' keys |
| StateBookkeeping.Loaded | omnigibson/objects/stateful_object.py:411-422 | loading keeps the map's keys |
| StateBookkeeping.MissingWarnings | omnigibson/objects/stateful_object.py:416-422 | no warning is logged exactly when every settable state's name is in the dump, and there is at most one warning per state |
| StateBookkeeping.StateNameIsInjective | omnigibson/object_states/factory.py:143-145 | class names tell the states apart, so dump keys do not collide |
| StateBookkeeping.DumpedDict | omnigibson/objects/stateful_object.py:397-409 | in the dumped dict, a settable state's name maps to its data, provided no other state shares the name |
| StateBookkeeping.DumpLoadRoundTrip | omnigibson/objects/stateful_object.py:397-422 | loading a map's own dump restores every state and logs no warning |
| StateBookkeeping.Unflatten | omnigibson/objects/stateful_object.py:437-451 | one item per settable state, each under that state's name |
| StateBookkeeping.UnflattenCovers | omnigibson/objects/stateful_object.py:437-451 | the slices read have the states' sizes and together make up the flat array from the start to the returned index |
| StateBookkeeping.FlattenSize | omnigibson/objects/stateful_object.py:424-435 | arrays of their states' sizes flatten to the summed size |
| StateBookkeeping.SerializeRoundTrip | omnigibson/objects/stateful_object.py:424-451 | deserializing what serializing produced gives back the same items, whatever precedes or follows them |
| StateBookkeeping.Cleared | omnigibson/objects/stateful_object.py:453-459 | clearing keeps the map's keys |
| StatefulObjects.FlagsMeaning | omnigibson/objects/stateful_object.py:347-353 | an emitter's flag exists exactly when the object has a state of its kind, and it is on exactly when one of those states is on |
| StatefulObjects.AnyFluidSoaked | omnigibson/objects/stateful_object.py:339-344 | the scan over the absorbed fluid systems answers whether any of them reports the object soaked |
| StatefulObjects.TextureOn | omnigibson/objects/stateful_object.py:338-346 | a texture-change state counts as on by its value; Soaked counts when any fluid system reports it |
| StatefulObjects.RaiseFlags | omnigibson/objects/stateful_object.py:347-353 | one state ORs its value into the flags of the emitters it drives, and no flag is dropped |
| StatefulObjects.WithFlags | omnigibson/objects/stateful_object.py:354-355 | applying flags creates no emitter and removes none |
| StatefulObjects.WithFlagsAgain | omnigibson/objects/stateful_object.py:354-355 | applying the flags inside the loop, state after state, ends where applying the final flags once ends |
| StatefulObjects.CreatedEmitters | omnigibson/objects/stateful_object.py:203-211 | a steam emitter is created exactly when the object has a steam state; a fire emitter exactly when it has a fire state and the heat source's link is one of its links |
| StatefulObjects.StatefulObject.constructor | omnigibson/objects/stateful_object.py:97-116 | the object keeps its abilities, its states are prepared from them, and no emitter exists yet |
| StatefulObjects.StatefulObject.InitializeStates | omnigibson/objects/stateful_object.py:143-147 | the states become an empty ordered map and nothing else changes |
| StatefulObjects.StatefulObject.PrepareObjectStates | omnigibson/objects/stateful_object.py:171-201 | the states become the map prepared from the abilities; no abilities means an empty dict |
| StatefulObjects.StatefulObject.AddState | omnigibson/objects/stateful_object.py:149-159 | adding fails with uninitialised states or a class already present; otherwise exactly that key is added and every other entry stays |
| StatefulObjects.StatefulObject.SetEmitterEnabled | omnigibson/objects/stateful_object.py:309-320 | an absent emitter is left alone; an existing one takes the value, and a write happens only when the value differs |
| StatefulObjects.StatefulObject.EnableAll | omnigibson/objects/stateful_object.py:354-355 | every existing emitter takes its flag |
| StatefulObjects.StatefulObject.UpdateVisuals | omnigibson/objects/stateful_object.py:330-359 | the chosen texture state is the highest-priority active one, and each existing emitter's flag is the OR of its states' values |
| StatefulObjects.StatefulObject.PostLoad | omnigibson/objects/stateful_object.py:203-211 | the emitters created on load are exactly those `CreatedEmitters` names, and they start disabled |
| StatefulObjects.StatefulObject.DumpState | omnigibson/objects/stateful_object.py:397-409 | the dump holds exactly the settable states' names and data, in map order |
| StatefulObjects.StatefulObject.LoadState | omnigibson/objects/stateful_object.py:411-422 | the states take the dumped data; states missing from the dump keep theirs and each logs a warning |
| StatefulObjects.StatefulObject.Deserialize | omnigibson/objects/stateful_object.py:437-451 | the settable states' slices are read in map order, and the returned index is the start plus their summed sizes |
| StatefulObjects.StatefulObject.ClearCachedStates | omnigibson/objects/stateful_object.py:453-459 | nothing changes without states; otherwise only caching-enabled states drop their cached values |
| LegacyStatefulObjects.StatefulObject.constructor | igibson/objects/stateful_object.py:84-100 | the object keeps its abilities, its states are prepared from them, and there is no emitter or texture API yet |
| LegacyStatefulObjects.StatefulObject.InitializeStates | igibson/objects/stateful_object.py:126-130 | the states become an empty ordered map and nothing else changes |
| LegacyStatefulObjects.StatefulObject.PrepareObjectStates | igibson/objects/stateful_object.py:154-184 | the states become the map prepared from the abilities; no abilities means an empty dict |
| LegacyStatefulObjects.StatefulObject.AddState | igibson/objects/stateful_object.py:132-142 | adding fails with uninitialised states or a class already present; otherwise exactly that key is added |
| LegacyStatefulObjects.StatefulObject.PostLoad | igibson/objects/stateful_object.py:186-193 | texture-change APIs are created exactly when the states meet the texture-change set, and a disabled steam emitter exactly when they meet the steam set |
| LegacyStatefulObjects.StatefulObject.SetEmitterEnabled | igibson/objects/stateful_object.py:257-266 | no emitter means nothing happens; otherwise the emitter takes the value, and a write happens only when the value differs |
| LegacyStatefulObjects.StatefulObject.UpdateVisuals | igibson/objects/stateful_object.py:281-298 | the chosen texture state is the highest-priority active one; an existing emitter's flag is the OR of the steam states' values |
| LegacyStatefulObjects.StatefulObject.DumpState | igibson/objects/stateful_object.py:336-348 | the dump holds exactly the settable states' names and data, in map order |
| LegacyStatefulObjects.StatefulObject.LoadState | igibson/objects/stateful_object.py:350-361 | the states take the dumped data; states missing from the dump keep theirs and each logs a warning |
| LegacyStatefulObjects.StatefulObject.Deserialize | igibson/objects/stateful_object.py:376-390 | the settable states' slices are read in map order, and the returned index is the start plus their summed sizes |
| LegacyStatefulObjects.StatefulObject.ClearCachedStates | igibson/objects/stateful_object.py:392-398 | nothing changes without states; otherwise only caching-enabled states drop their cached values |
| Slices.Slice | omnigibson/prims/xform_prim.py:469-471 | Python slicing: a slice within range is the sub-sequence, and a slice past the end is cut short |
| XFormPrims.Serialize | omnigibson/prims/xform_prim.py:464-467 | the flat state is `pos` followed by `ori`, and its length is the sum of theirs |
| XFormPrims.Deserialize | omnigibson/prims/xform_prim.py:469-471 | 7 entries are consumed; `pos` and `ori` are the first 3 and the next 4 entries of the flat state |
| XFormPrims.DeserializeSerialize | omnigibson/prims/xform_prim.py:457-471 | a 3-entry position and a 4-entry orientation come back unchanged from serializing, whatever follows them |
| XFormPrims.SerializeDeserialize | omnigibson/prims/xform_prim.py:464-471 | seven flat entries come back unchanged from deserializing and serializing again |
| XFormPrims.Pick | omnigibson/prims/xform_prim.py:312 | numpy fancy indexing: entry `i` of the result is the entry the `i`-th index names |
| XFormPrims.ReordersMoveScalar | omnigibson/prims/xform_prim.py:312-334 | `[3, 0, 1, 2]` moves the scalar to the front and `[1, 2, 3, 0]` moves it to the back |
| XFormPrims.ScalarFirstThenLast | omnigibson/prims/xform_prim.py:312-334 | turning a quaternion scalar-first and then scalar-last gives it back |
| XFormPrims.ScalarLastThenFirst | omnigibson/prims/xform_prim.py:312-334 | turning a quaternion scalar-last and then scalar-first gives it back |
| XFormPrims.ReordersPermute | omnigibson/prims/xform_prim.py:312-334 | both reorders are permutations of the quaternion's components |
| XFormPrims.ScaleVector | omnigibson/prims/xform_prim.py:375 | a number becomes three copies of itself; an iterable is used as given |
| XFormPrims.XFormPrim.constructor | omnigibson/prims/xform_prim.py:48-66 | the default state is unset until the prim is initialised |
| XFormPrims.XFormPrim.HasMaterial | omnigibson/prims/xform_prim.py:196-202 | no material is bound exactly when the bound path is empty |
| XFormPrims.XFormPrim.GetLocalPose | omnigibson/prims/xform_prim.py:302-312 | on a prim whose attributes have their shapes, the translation as stored, and the stored orientation turned scalar-last |
| XFormPrims.XFormPrim.SetLocalPose | omnigibson/prims/xform_prim.py:314-345 | the attribute shapes are kept; a given translation is written, a given orientation is written scalar-first, a missing argument leaves its attribute alone, and each missing property logs its error |
| XFormPrims.XFormPrim.SetThenGetLocalPose | omnigibson/prims/xform_prim.py:302-345 | reading the local pose after setting it gives back exactly what was set |
| XFormPrims.XFormPrim.SetScale | omnigibson/prims/xform_prim.py:368-380 | the attribute shapes are kept; the scale becomes the 3-vector of the argument, and a missing scale property logs an error |
| XFormPrims.XFormPrim.SetDefaultState | omnigibson/prims/xform_prim.py:177-191 | a given component replaces the stored one and a missing one is left as it was; giving one before initialisation fails as the attribute write on None does |
| UiUtils.KeyboardEventHandler.constructor | omnigibson/utils/ui_utils.py:16-24 | the class starts with no callback and no subscription |
| UiUtils.KeyboardEventHandler.Initialize | omnigibson/utils/ui_utils.py:29-37 | the meta callback is subscribed and the table is kept |
| UiUtils.KeyboardEventHandler.Reset | omnigibson/utils/ui_utils.py:39-49 | the table is emptied and the subscription dropped |
| UiUtils.KeyboardEventHandler.AddKeyboardCallback | omnigibson/utils/ui_utils.py:51-68 | a subscription is made only when none exists, and the key is bound to the callback |
| UiUtils.KeyboardEventHandler.MetaCallback | omnigibson/utils/ui_utils.py:70-82 | a callback fires exactly on a press or repeat of a bound key, it is the one bound, and the answer is always true |
| UiUtils.ChoiceIndex | omnigibson/utils/ui_utils.py:119-127 | the typed number is clamped to the options and made 0-based; unparseable input gives 0 |
| UiUtils.ChooseFromOptions | omnigibson/utils/ui_utils.py:100-131 | an option is returned exactly when there are options; it is one of them, the one the clamped index names |
| RobotTeleop.Components | omnigibson/utils/ui_utils.py:253 | the controllers' names, in order |
| RobotTeleop.InfoTable | omnigibson/utils/ui_utils.py:251-260 | there is one entry per controller, and each entry's command ends within the summed command size |
| RobotTeleop.InfoTableOffsets | omnigibson/utils/ui_utils.py:252-260 | each controller's entry carries its class, dofs and size, and starts at the summed sizes of the controllers before it |
| RobotTeleop.Range | omnigibson/utils/ui_utils.py:344-346 | `range(start, start + n)` |
| RobotTeleop.IkMappingBindsEachEntry | omnigibson/utils/ui_utils.py:306-321 | the IK bindings give each of the six command entries one key that raises it by 0.5 and one that lowers it by 0.5 |
| RobotTeleop.IkMappingBindsNothingElse | omnigibson/utils/ui_utils.py:306-321 | the IK bindings bind no other key |
| RobotTeleop.Bind | omnigibson/utils/ui_utils.py:343-371 | binding one controller fails exactly for a class the bindings do not know |
| RobotTeleop.BindAllStaysFailed | omnigibson/utils/ui_utils.py:342-371 | once a controller raises, the controllers after it change nothing |
| RobotTeleop.PopulateFailsOnUnknown | omnigibson/utils/ui_utils.py:342-371 | populating fails exactly when some controller's class is unknown; the error names the first one, and the controllers before it stay bound |
| RobotTeleop.PopulateGrippersAtRest | omnigibson/utils/ui_utils.py:362-366 | every binary gripper starts with direction 1.0 and persistent action 1.0; grippers are only appended, each with a direction |
| RobotTeleop.JointCommandsFit | omnigibson/utils/ui_utils.py:343-361 | the joint command indices appended stay below any bound that every controller's command ends within |
| RobotTeleop.PopulatedJointCommandsFit | omnigibson/utils/ui_utils.py:252-371 | for a robot's own table, every joint command index lies inside the action vector |
| RobotTeleop.Shift | omnigibson/utils/ui_utils.py:381-399 | a selection moves by one towards the key's end, clamped to the choices |
| RobotTeleop.HandleEventEffects | omnigibson/utils/ui_utils.py:373-425 | sensor visualisation is asked for exactly on a press or repeat of R, shutdown exactly on one of Escape; those two keys leave every attribute but `keypress` alone; a press records its key; the IK bindings change only on keys 3 and 4 with several IK arms |
| RobotTeleop.PlainKeyActs | omnigibson/utils/ui_utils.py:410-420 | a key with no selection role makes its binding, or None, the active action, keeps the selections and bindings, and never clears a pending toggle |
| RobotTeleop.PressKeepsRange | omnigibson/utils/ui_utils.py:379-400 | a press never moves a selection out of its range |
| RobotTeleop.HandleEventKeepsRange | omnigibson/utils/ui_utils.py:373-428 | the handler never moves a selection out of its range |
| RobotTeleop.SelectionMovesByOne | omnigibson/utils/ui_utils.py:379-384 | with several joints, key 1 moves the joint down by one and stops at 0, key 2 moves it up and stops at the last; arm, gripper and action stay |
| RobotTeleop.ArmSelectionRebindsIk | omnigibson/utils/ui_utils.py:386-393 | selecting another arm binds the twelve IK keys to the new arm's command entries |
| RobotTeleop.ToggleAndRelease | omnigibson/utils/ui_utils.py:414-425 | only a press of T marks a toggle; a release clears the key and the active action and nothing else |
| RobotTeleop.ActiveWrite | omnigibson/utils/ui_utils.py:440-453 | the vector has the action size and is zero except where the active action writes its value; an index outside the list or the vector raises IndexError |
| RobotTeleop.GripperPassStaysFailed | omnigibson/utils/ui_utils.py:456-471 | once a gripper raises, the grippers after it change nothing |
| RobotTeleop.GripperPassTogglesSelected | omnigibson/utils/ui_utils.py:456-468 | a completed loop toggles at most the selected gripper: its direction flips, its persistent action becomes the toggle value times the new direction, the toggle is cleared, and nothing else changes |
| RobotTeleop.GripperPassWritesSlots | omnigibson/utils/ui_utils.py:456-471 | a completed loop keeps the vector's length and writes only at the grippers' command slots |
| RobotTeleop.TeleopWritesOnlySlots | omnigibson/utils/ui_utils.py:436-480 | a completed step gives a vector of the action size that is zero except at the active action's index and at the binary grippers' slots |
| RobotTeleop.TeleopTogglesSelected | omnigibson/utils/ui_utils.py:436-480 | a completed step toggles at most the selected binary gripper, and only when T has a value |
| RobotTeleop.KeyboardRobotController.constructor | omnigibson/utils/ui_utils.py:244-284 | the controller table at running offsets, empty bindings, every selection at 0, no key, no action and no toggle |
| RobotTeleop.KeyboardRobotController.BindController | omnigibson/utils/ui_utils.py:342-371 | one iteration of the populate loop changes the bindings as `Bind` says and fails when it does |
| RobotTeleop.KeyboardRobotController.AppendCommands | omnigibson/utils/ui_utils.py:343-347 | the controller's command indices and dofs are appended |
| RobotTeleop.KeyboardRobotController.BindDrive | omnigibson/utils/ui_utils.py:348-352 | I and K drive the first command entry forward and back, and L and J turn with the second |
| RobotTeleop.KeyboardRobotController.BindBinaryGripper | omnigibson/utils/ui_utils.py:362-366 | T is bound to the gripper's command, which starts at rest and is appended to the binary grippers |
| RobotTeleop.KeyboardRobotController.RestartBindings | omnigibson/utils/ui_utils.py:331-339 | fresh tables with only the bracket keys bound |
| RobotTeleop.KeyboardRobotController.PopulateKeypressMapping | omnigibson/utils/ui_utils.py:323-371 | the bindings become what the populate loop computes, stopping at the first unknown controller, whose error is returned |
| RobotTeleop.KeyboardRobotController.KeyboardEventHandler | omnigibson/utils/ui_utils.py:373-428 | the handler changes the attributes as `HandleEvent` says, keeps the selections in range, and always answers true |
| RobotTeleop.KeyboardRobotController.ChangeArm | omnigibson/utils/ui_utils.py:386-393 | the arm selection moves and the IK keys are rebound to the new arm |
| RobotTeleop.KeyboardRobotController.ChangeSelection | omnigibson/utils/ui_utils.py:379-400 | the joint or gripper selection moves by one within range |
| RobotTeleop.KeyboardRobotController.PlainKey | omnigibson/utils/ui_utils.py:402-412 | R and Escape give their effects; any other key's binding becomes the active action |
| RobotTeleop.KeyboardRobotController.PressKey | omnigibson/utils/ui_utils.py:379-412 | a pressed or repeated key changes the attributes as `Press` says, keeping the arm in range |
| RobotTeleop.KeyboardRobotController.GripperStep | omnigibson/utils/ui_utils.py:458-471 | one gripper is toggled if it is selected and a toggle is pending, then its persistent action is written at its slot of the array |
| RobotTeleop.KeyboardRobotController.GripperLoop | omnigibson/utils/ui_utils.py:456-471 | the loop over the binary grippers updates the array in place and the gripper attributes as `GripperPass` says |
| RobotTeleop.KeyboardRobotController.GetTeleopAction | omnigibson/utils/ui_utils.py:436-480 | a fresh array holding what `Teleop` computes, with the gripper attributes it leaves; the exceptions are those of the source |
| RobotTeleop.KeyboardRobotController.Create | omnigibson/utils/ui_utils.py:244-284 | construction with the bindings populated fails exactly when populating fails; otherwise the table and bindings are those computed |

## Left out

- The engine calls: emitter prim creation and attributes, the texture and material updates
  (with their `np.allclose` comparisons), the carb/omni keyboard subscription, printing,
  `og.shutdown` and `robot.visualize_sensors`. An emitter is its `enabled` flag. A subscription
  is an id passed in. Shutdown and visualisation are `Effect` values the handler returns.
- The behaviour of the individual state classes, which are defined outside these files:
  - dependencies;
  - fluid-source subclassing;
  - `settable` and `state_size`;
  - caching;
  - `get_value`;
  - the dumped data.

  These are parameters (`StateClasses`, `Readings`, value functions). The `ROOM_STATES` set,
  also defined outside, stands as four room-state kinds.
- The fire flag of the omnigibson `update_visuals` reads the first component of the heat
  source's value. The model takes that component as the state's boolean reading.
- LegacyStatefulObjects.StatefulObject: the igibson class reads its tables (default states,
  abilities, steam and texture-change sets, priorities) from igibson's own object-states factory,
  which is not part of this model. The model gives it the omnigibson catalogue's tables.
- The iteration order of `_ALL_STATES` and `_DEFAULT_STATE_SET`, which are frozensets and so
  iterate in hash order. The model fixes one order (`AllStatesList`, `DefaultStatesList`). That
  order decides the seed order of the assembled list, the key order of the state map, the dump
  order and the flat serialization layout, and the order of the fluid-source list. The model's
  results hold for that one order; the contracts about membership and round trips do not depend
  on it.
- The networkx topological sort itself. The model computes an order with the same contract,
  breaking ties by catalogue order.
- The taxonomy lookup of abilities in the constructors, which is an external library. The
  abilities dict is an argument of the constructors.
- The `StatefulObject` super-class constructors and every other method of these classes:
  positions, textures, `_serialize` of the kinematic part. Only the `non_kin` part of the state
  is modelled.
- The world-frame pose math of `XFormPrim`: `set_position_orientation`, `get_rpy`, the AABB, the
  world scale, the materials, and the assertion of `_set_xform_properties`. The two quaternion
  reorders are modelled where they occur.
- `quatf` versus `quatd` precision of the orient attribute. Reals are exact.
- XFormPrims.XFormPrim.SetLocalPose: requires a translation of the documented shape (3,) and an
  orientation of shape (4,). The `TypeError` that `Gf.Vec3d` raises for another length is not
  modelled.
- XFormPrims.XFormPrim.SetScale: requires a per-axis scale of the documented shape (3,). The
  `TypeError` that `Gf.Vec3d` raises for another length is not modelled.
- XFormPrims.XFormPrim.constructor: the initial translation, orientation and scale come from
  the scene description, which is not part of the model. The model starts from the identity
  pose and unit scale.
- `choose_from_options` with `random_selection`, and `get_random_action`, which draw random
  numbers. Parsing the typed string with `int(s)` is an `Option<int>` argument to
  `ChoiceIndex`.
- The printed option list and the prompt.
- `CameraMover`, `disclaimer`, `register_keyboard_handler` and `print_keyboard_teleop_info`.
  These are input glue and printing.
- RobotTeleop.KeyboardRobotController.constructor: the source's `__init__` populates the
  bindings and registers the handler. The model splits populating into `Create`. Registration
  is left out.
- `robot.action_dim` is a constructor argument, and the robot object is its ordered
  controllers.
- The attributes that are `None` before populating start as empty tables in the model. In the
  source, reading them at that point raises.
- The text of an exception is its class name (`IndexError`, `KeyError`) or, for the unknown
  controller, the source's message. Python's traceback is not modelled.
- StateBookkeeping.DumpedDict: requires only that no other state shares the given state's name.
  That is the part of `get_state_name`'s injectivity the lemma needs.
  `StateBookkeeping.StateNameIsInjective` proves full injectivity for the real name function.

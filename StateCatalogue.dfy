/**
 * The object-state catalogue of omnigibson/object_states/factory.py: every state kind the
 * simulator knows, the ability -> state-kinds table, the default / fire / steam / texture-change
 * category sets, the texture-change priority ranks, name lookup, the fluid-source filter and the
 * guarded state-instance constructor.
 *
 * All tables are frozen at import time in the source, so here they are constants and functions
 * without state.
 */
module StateCatalogue {
  import opened Wrappers

  /** One constructor per state class of the catalogue. The last four stand for ROOM_STATES. */
  datatype StateKind =
    | AABB | Burnt | CleaningTool | ContactBodies | Cooked | Dusty | Heated | Attached | Frozen
    | HeatSourceOrSink | HorizontalAdjacency | InFOVOfRobot | InHandOfRobot | InReachOfRobot
    | InSameRoomAsRobot | Inside | InsideRoomTypes | MaxTemperature | NextTo | ObjectsInFOVOfRobot
    | OnFloor | OnTop | Open | Pose | Sliced | Slicer | Soaked | Stained | Temperature | ToggledOn
    | Touching | Under | VerticalAdjacency | WaterSource | WaterSink | Filled
    | IsInBathroom | IsInBedroom | IsInKitchen | IsInLivingRoom

  /**
   * What the state classes themselves declare (in class bodies outside this model):
   * `get_dependencies`, `get_optional_dependencies`, subclassing `FluidSource`, `settable`,
   * `state_size` and subclassing `CachingEnabledObjectState`.
   */
  datatype StateClasses = StateClasses(
    dependencies: StateKind -> seq<StateKind>,
    optionalDependencies: StateKind -> seq<StateKind>,
    isFluidSource: StateKind -> bool,
    settable: StateKind -> bool,
    stateSize: StateKind -> nat,
    cachingEnabled: StateKind -> bool)

  /** Keyword parameters forwarded to a state constructor (`{param: value}`). */
  type Params = map<string, string>

  /**
   * A constructed state object bound to one object: its class, its constructor parameters,
   * the content its `dump_state` reports and whether it currently holds a cached value.
   */
  datatype StateInstance = StateInstance(kind: StateKind, params: Params, data: seq<real>, hasCachedValue: bool)

  /** A class handed to `get_object_state_instance`: a state class, or any other class. */
  datatype StateClass = ObjectStateClass(kind: StateKind) | OtherClass(name: string)

  const RoomStates: seq<StateKind> := [IsInBathroom, IsInBedroom, IsInKitchen, IsInLivingRoom]

  /** `_ALL_STATES` (the listed classes followed by ROOM_STATES), in a fixed iteration order. */
  const AllStatesList: seq<StateKind> := CatalogueRowA + CatalogueRowB + CatalogueRowC + CatalogueRowD

  // The catalogue in rows of ten, so that each row can be inspected on its own.
  const CatalogueRowA: seq<StateKind> := [AABB, Burnt, CleaningTool, ContactBodies, Cooked, Dusty, Heated, Attached, Frozen, HeatSourceOrSink]
  const CatalogueRowB: seq<StateKind> := [HorizontalAdjacency, InFOVOfRobot, InHandOfRobot, InReachOfRobot, InSameRoomAsRobot, Inside, InsideRoomTypes, MaxTemperature, NextTo, ObjectsInFOVOfRobot]
  const CatalogueRowC: seq<StateKind> := [OnFloor, OnTop, Open, Pose, Sliced, Slicer, Soaked, Stained, Temperature, ToggledOn]
  const CatalogueRowD: seq<StateKind> := [Touching, Under, VerticalAdjacency, WaterSource, WaterSink, Filled, IsInBathroom, IsInBedroom, IsInKitchen, IsInLivingRoom]

  /** `get_all_states()` */
  function AllStates(): set<StateKind> {
    set k | k in AllStatesList
  }

  /** `_ABILITY_TO_STATE_MAPPING` */
  const AbilityToStates: map<string, seq<StateKind>> := map[
    "attachable" := [Attached],
    "burnable" := [Burnt],
    "cleaningTool" := [CleaningTool],
    "coldSource" := [HeatSourceOrSink],
    "cookable" := [Cooked],
    "dustyable" := [Dusty],
    "freezable" := [Frozen],
    "heatable" := [Heated],
    "heatSource" := [HeatSourceOrSink],
    "openable" := [Open],
    "robot" := RoomStates + [ObjectsInFOVOfRobot],
    "sliceable" := [Sliced],
    "slicer" := [Slicer],
    "soakable" := [Soaked],
    "stainable" := [Stained],
    "toggleable" := [ToggledOn],
    "waterSource" := [WaterSource],
    "waterSink" := [WaterSink],
    "fillable" := [Filled]
  ]

  /** `_DEFAULT_STATE_SET`, in a fixed iteration order. */
  const DefaultStatesList: seq<StateKind> :=
    [ InFOVOfRobot, InHandOfRobot, InReachOfRobot, InSameRoomAsRobot, Inside,
      NextTo, OnFloor, OnTop, Touching, Under ]

  /** `get_default_states()` */
  function DefaultStates(): set<StateKind> {
    set k | k in DefaultStatesList
  }

  /** `get_fire_states()` */
  function FireStates(): set<StateKind> {
    {HeatSourceOrSink}
  }

  /** `get_steam_states()` */
  function SteamStates(): set<StateKind> {
    {Heated}
  }

  /** `get_texture_change_states()` */
  function TextureChangeStates(): set<StateKind> {
    {Burnt, Cooked, Frozen, Soaked, ToggledOn}
  }

  /** A group holds one of the given states exactly when the two sets meet. */
  lemma Overlap(keys: set<StateKind>, group: set<StateKind>)
    ensures keys * group != {} <==> exists k :: k in keys && k in group
  {
    if keys * group != {} {
      var k :| k in keys * group;
      assert k in keys && k in group;
    }
    if exists k :: k in keys && k in group {
      var k :| k in keys && k in group;
      assert k in keys * group;
    }
  }

  /** `get_texture_change_priority()`: one rank per texture-change state, no two alike. */
  function TextureChangePriority(): (p: map<StateKind, int>)
    ensures p.Keys == TextureChangeStates()
    ensures forall a, b :: a in p && b in p && a != b ==> p[a] != p[b]
  {
    map[Frozen := 4, Burnt := 3, Cooked := 2, Soaked := 1, ToggledOn := 0]
  }

  /** `get_states_for_ability`: the table entry, or the empty list for an unknown ability. */
  function StatesForAbility(ability: string): (r: seq<StateKind>)
    ensures ability in AbilityToStates ==> r == AbilityToStates[ability]
    ensures r == [] <==> ability !in AbilityToStates
  {
    if ability !in AbilityToStates then [] else AbilityToStates[ability]
  }

  /** `get_state_name`: the class name. */
  function StateName(k: StateKind): string {
    match k
    case AABB => "AABB"
    case Burnt => "Burnt"
    case CleaningTool => "CleaningTool"
    case ContactBodies => "ContactBodies"
    case Cooked => "Cooked"
    case Dusty => "Dusty"
    case Heated => "Heated"
    case Attached => "Attached"
    case Frozen => "Frozen"
    case HeatSourceOrSink => "HeatSourceOrSink"
    case HorizontalAdjacency => "HorizontalAdjacency"
    case InFOVOfRobot => "InFOVOfRobot"
    case InHandOfRobot => "InHandOfRobot"
    case InReachOfRobot => "InReachOfRobot"
    case InSameRoomAsRobot => "InSameRoomAsRobot"
    case Inside => "Inside"
    case InsideRoomTypes => "InsideRoomTypes"
    case MaxTemperature => "MaxTemperature"
    case NextTo => "NextTo"
    case ObjectsInFOVOfRobot => "ObjectsInFOVOfRobot"
    case OnFloor => "OnFloor"
    case OnTop => "OnTop"
    case Open => "Open"
    case Pose => "Pose"
    case Sliced => "Sliced"
    case Slicer => "Slicer"
    case Soaked => "Soaked"
    case Stained => "Stained"
    case Temperature => "Temperature"
    case ToggledOn => "ToggledOn"
    case Touching => "Touching"
    case Under => "Under"
    case VerticalAdjacency => "VerticalAdjacency"
    case WaterSource => "WaterSource"
    case WaterSink => "WaterSink"
    case Filled => "Filled"
    case IsInBathroom => "IsInBathroom"
    case IsInBedroom => "IsInBedroom"
    case IsInKitchen => "IsInKitchen"
    case IsInLivingRoom => "IsInLivingRoom"
  }

  /**
   * Length, first two and last character of a class name: enough to tell the catalogue's names
   * apart, and cheap for the verifier to compute. Used only to show that class names are unique.
   */
  ghost function NameKey(name: string): (int, char, char, char) {
    if |name| < 2 then (|name|, ' ', ' ', ' ') else (|name|, name[0], name[1], name[|name| - 1])
  }

  ghost function KindOfKey(key: (int, char, char, char)): Option<StateKind> {
    match key
    case (4, 'A', 'A', 'B') => Some(AABB)
    case (5, 'B', 'u', 't') => Some(Burnt)
    case (12, 'C', 'l', 'l') => Some(CleaningTool)
    case (13, 'C', 'o', 's') => Some(ContactBodies)
    case (6, 'C', 'o', 'd') => Some(Cooked)
    case (5, 'D', 'u', 'y') => Some(Dusty)
    case (6, 'H', 'e', 'd') => Some(Heated)
    case (8, 'A', 't', 'd') => Some(Attached)
    case (6, 'F', 'r', 'n') => Some(Frozen)
    case (16, 'H', 'e', 'k') => Some(HeatSourceOrSink)
    case (19, 'H', 'o', 'y') => Some(HorizontalAdjacency)
    case (12, 'I', 'n', 't') => Some(InFOVOfRobot)
    case (13, 'I', 'n', 't') => Some(InHandOfRobot)
    case (14, 'I', 'n', 't') => Some(InReachOfRobot)
    case (17, 'I', 'n', 't') => Some(InSameRoomAsRobot)
    case (6, 'I', 'n', 'e') => Some(Inside)
    case (15, 'I', 'n', 's') => Some(InsideRoomTypes)
    case (14, 'M', 'a', 'e') => Some(MaxTemperature)
    case (6, 'N', 'e', 'o') => Some(NextTo)
    case (19, 'O', 'b', 't') => Some(ObjectsInFOVOfRobot)
    case (7, 'O', 'n', 'r') => Some(OnFloor)
    case (5, 'O', 'n', 'p') => Some(OnTop)
    case (4, 'O', 'p', 'n') => Some(Open)
    case (4, 'P', 'o', 'e') => Some(Pose)
    case (6, 'S', 'l', 'd') => Some(Sliced)
    case (6, 'S', 'l', 'r') => Some(Slicer)
    case (6, 'S', 'o', 'd') => Some(Soaked)
    case (7, 'S', 't', 'd') => Some(Stained)
    case (11, 'T', 'e', 'e') => Some(Temperature)
    case (9, 'T', 'o', 'n') => Some(ToggledOn)
    case (8, 'T', 'o', 'g') => Some(Touching)
    case (5, 'U', 'n', 'r') => Some(Under)
    case (17, 'V', 'e', 'y') => Some(VerticalAdjacency)
    case (11, 'W', 'a', 'e') => Some(WaterSource)
    case (9, 'W', 'a', 'k') => Some(WaterSink)
    case (6, 'F', 'i', 'd') => Some(Filled)
    case (12, 'I', 's', 'm') => Some(IsInBathroom)
    case (11, 'I', 's', 'm') => Some(IsInBedroom)
    case (11, 'I', 's', 'n') => Some(IsInKitchen)
    case (14, 'I', 's', 'm') => Some(IsInLivingRoom)
    case _ => None
  }

  // NamesReadBackGroup1 to 8 split NameReadsBack into groups of five kinds, so that no single
  // proof has to unfold every state name at once; the split only keeps the solver's work small.
  lemma NamesReadBackGroup1(k: StateKind)
    requires k in {AABB, Burnt, CleaningTool, ContactBodies, Cooked}
    ensures KindOfKey(NameKey(StateName(k))) == Some(k)
  {
  }

  lemma NamesReadBackGroup2(k: StateKind)
    requires k in {Dusty, Heated, Attached, Frozen, HeatSourceOrSink}
    ensures KindOfKey(NameKey(StateName(k))) == Some(k)
  {
  }

  lemma NamesReadBackGroup3(k: StateKind)
    requires k in {HorizontalAdjacency, InFOVOfRobot, InHandOfRobot, InReachOfRobot, InSameRoomAsRobot}
    ensures KindOfKey(NameKey(StateName(k))) == Some(k)
  {
  }

  lemma NamesReadBackGroup4(k: StateKind)
    requires k in {Inside, InsideRoomTypes, MaxTemperature, NextTo, ObjectsInFOVOfRobot}
    ensures KindOfKey(NameKey(StateName(k))) == Some(k)
  {
  }

  lemma NamesReadBackGroup5(k: StateKind)
    requires k in {OnFloor, OnTop, Open, Pose, Sliced}
    ensures KindOfKey(NameKey(StateName(k))) == Some(k)
  {
  }

  lemma NamesReadBackGroup6(k: StateKind)
    requires k in {Slicer, Soaked, Stained, Temperature, ToggledOn}
    ensures KindOfKey(NameKey(StateName(k))) == Some(k)
  {
  }

  lemma NamesReadBackGroup7(k: StateKind)
    requires k in {Touching, Under, VerticalAdjacency, WaterSource, WaterSink}
    ensures KindOfKey(NameKey(StateName(k))) == Some(k)
  {
  }

  lemma NamesReadBackGroup8(k: StateKind)
    requires k in {Filled, IsInBathroom, IsInBedroom, IsInKitchen, IsInLivingRoom}
    ensures KindOfKey(NameKey(StateName(k))) == Some(k)
  {
  }

  lemma NameReadsBack(k: StateKind)
    ensures KindOfKey(NameKey(StateName(k))) == Some(k)
  {
    match k
    case AABB | Burnt | CleaningTool | ContactBodies | Cooked => NamesReadBackGroup1(k);
    case Dusty | Heated | Attached | Frozen | HeatSourceOrSink => NamesReadBackGroup2(k);
    case HorizontalAdjacency | InFOVOfRobot | InHandOfRobot | InReachOfRobot | InSameRoomAsRobot => NamesReadBackGroup3(k);
    case Inside | InsideRoomTypes | MaxTemperature | NextTo | ObjectsInFOVOfRobot => NamesReadBackGroup4(k);
    case OnFloor | OnTop | Open | Pose | Sliced => NamesReadBackGroup5(k);
    case Slicer | Soaked | Stained | Temperature | ToggledOn => NamesReadBackGroup6(k);
    case Touching | Under | VerticalAdjacency | WaterSource | WaterSink => NamesReadBackGroup7(k);
    case Filled | IsInBathroom | IsInBedroom | IsInKitchen | IsInLivingRoom => NamesReadBackGroup8(k);
  }

  /** No two state classes share a name. */
  lemma StateNameInjective(a: StateKind, b: StateKind)
    requires StateName(a) == StateName(b)
    ensures a == b
  {
    NameReadsBack(a);
    NameReadsBack(b);
  }

  /** `next(state for state in states if get_state_name(state) == name)`; None where `next` raises. */
  function FindByName(states: seq<StateKind>, name: string): (r: Option<StateKind>)
    ensures r.Some? ==> r.value in states && StateName(r.value) == name
    ensures r.None? <==> forall k :: k in states ==> StateName(k) != name
  {
    if states == [] then None
    else if StateName(states[0]) == name then Some(states[0])
    else FindByName(states[1..], name)
  }

  /** `get_state_from_name` */
  function StateFromName(name: string): Option<StateKind> {
    FindByName(AllStatesList, name)
  }

  /** Every value of StateKind is in the catalogue. */
  lemma EveryKindCatalogued(k: StateKind)
    ensures k in AllStatesList && k in AllStates()
  {
  }

  /** No element of `s` occurs twice. */
  predicate Distinct<T(==)>(s: seq<T>) {
    forall i, j :: 0 <= i < j < |s| ==> s[i] != s[j]
  }

  /** Position of a kind in AllStatesList; used only to show that the list has no repeats. */
  ghost function Ordinal(k: StateKind): nat {
    match k
    case AABB => 0
    case Burnt => 1
    case CleaningTool => 2
    case ContactBodies => 3
    case Cooked => 4
    case Dusty => 5
    case Heated => 6
    case Attached => 7
    case Frozen => 8
    case HeatSourceOrSink => 9
    case HorizontalAdjacency => 10
    case InFOVOfRobot => 11
    case InHandOfRobot => 12
    case InReachOfRobot => 13
    case InSameRoomAsRobot => 14
    case Inside => 15
    case InsideRoomTypes => 16
    case MaxTemperature => 17
    case NextTo => 18
    case ObjectsInFOVOfRobot => 19
    case OnFloor => 20
    case OnTop => 21
    case Open => 22
    case Pose => 23
    case Sliced => 24
    case Slicer => 25
    case Soaked => 26
    case Stained => 27
    case Temperature => 28
    case ToggledOn => 29
    case Touching => 30
    case Under => 31
    case VerticalAdjacency => 32
    case WaterSource => 33
    case WaterSink => 34
    case Filled => 35
    case IsInBathroom => 36
    case IsInBedroom => 37
    case IsInKitchen => 38
    case IsInLivingRoom => 39
  }

  // OrdinalsOfRowA to D take the catalogue one row at a time, for the same reason: the split
  // only keeps the solver's work small.
  lemma OrdinalsOfRowA(i: int)
    requires 0 <= i < |CatalogueRowA|
    ensures Ordinal(CatalogueRowA[i]) == 0 + i
  {
  }

  lemma OrdinalsOfRowB(i: int)
    requires 0 <= i < |CatalogueRowB|
    ensures Ordinal(CatalogueRowB[i]) == 10 + i
  {
  }

  lemma OrdinalsOfRowC(i: int)
    requires 0 <= i < |CatalogueRowC|
    ensures Ordinal(CatalogueRowC[i]) == 20 + i
  {
  }

  lemma OrdinalsOfRowD(i: int)
    requires 0 <= i < |CatalogueRowD|
    ensures Ordinal(CatalogueRowD[i]) == 30 + i
  {
  }

  lemma OrdinalOfIndex(i: int)
    requires 0 <= i < |AllStatesList|
    ensures Ordinal(AllStatesList[i]) == i
  {
    if i < 10 {
      OrdinalsOfRowA(i);
    } else if i < 20 {
      OrdinalsOfRowB(i - 10);
    } else if i < 30 {
      OrdinalsOfRowC(i - 20);
    } else {
      OrdinalsOfRowD(i - 30);
    }
  }

  /** The catalogue lists every state kind once. */
  lemma AllStatesDistinct()
    ensures Distinct(AllStatesList)
  {
    forall i, j | 0 <= i < j < |AllStatesList| ensures AllStatesList[i] != AllStatesList[j] {
      OrdinalOfIndex(i);
      OrdinalOfIndex(j);
    }
  }

  /** The catalogue holds every state kind named by the ability table and the category sets. */
  lemma CatalogueCoversTables()
    ensures forall a, k :: a in AbilityToStates && k in AbilityToStates[a] ==> k in AllStates()
    ensures DefaultStates() <= AllStates()
    ensures FireStates() <= AllStates() && SteamStates() <= AllStates()
    ensures TextureChangeStates() <= AllStates()
  {
  }

  /** A state's name leads back to that state; a name of no state finds nothing. */
  lemma StateNameRoundTrip(k: StateKind, name: string)
    ensures StateFromName(StateName(k)) == Some(k)
    ensures StateFromName(name).None? <==> forall s :: StateName(s) != name
  {
    EveryKindCatalogued(k);
    var r := StateFromName(StateName(k));
    StateNameInjective(r.value, k);
    if StateFromName(name).None? {
      forall s ensures StateName(s) != name {
        EveryKindCatalogued(s);
      }
    }
  }

  /** `[state for state in states if cond(state)]` */
  function FilterStates(states: seq<StateKind>, cond: StateKind -> bool): (r: seq<StateKind>)
    ensures forall k :: k in r <==> k in states && cond(k)
    ensures |r| <= |states|
  {
    if states == [] then []
    else (if cond(states[0]) then [states[0]] else []) + FilterStates(states[1..], cond)
  }

  /** `get_fluid_source_states`: exactly the catalogued fluid-source states. */
  function FluidSourceStates(classes: StateClasses): (r: seq<StateKind>)
    ensures forall k :: k in r <==> classes.isFluidSource(k)
    ensures forall k :: k in r ==> k in AllStates()
  {
    var r := FilterStates(AllStatesList, classes.isFluidSource);
    forall k ensures k in r <==> classes.isFluidSource(k) {
      EveryKindCatalogued(k);
    }
    r
  }

  /** A fresh state object of `kind` built with `params`. */
  function NewStateInstance(kind: StateKind, params: Params): (s: StateInstance)
    ensures s.kind == kind && s.params == params && !s.hasCachedValue
  {
    StateInstance(kind, params, [], false)
  }

  /**
   * `get_object_state_instance`: refuses a class that is not an object-state class (the
   * source's failed assert) and treats absent params as empty params.
   */
  function ObjectStateInstance(stateClass: StateClass, params: Option<Params>): (r: Result<StateInstance, string>)
    ensures r.Success? <==> stateClass.ObjectStateClass?
    ensures r.Success? ==> r.value.kind == stateClass.kind
    ensures r.Success? && params.None? ==> r.value.params == map[]
    ensures r.Success? && params.Some? ==> r.value.params == params.value
  {
    match stateClass
    case OtherClass(name) => Failure("unknown state class: " + name)
    case ObjectStateClass(kind) =>
      Success(NewStateInstance(kind, if params.None? then map[] else params.value))
  }
}

/**
 * `KeyboardRobotController` of omnigibson/utils/ui_utils.py: the table of the robot's
 * controllers with the offset of each one's command in the action vector, the keypress
 * bindings built from it, the keyboard event handler that selects joints, arms and grippers,
 * and the action vector a teleoperation step produces.
 *
 * The robot is its ordered controllers; a controller's class is one of the kinds the
 * bindings know, or any other class name. Printing, the sensors' visualisation and the
 * simulator's shutdown are outside the model: the handler reports them as an `Effect`.
 */
module RobotTeleop {
  import opened Wrappers
  import opened UiUtils

  /** `type(controller).__name__`; `OtherController` carries any other class name. */
  datatype ControllerKind =
    | JointController
    | DifferentialDriveController
    | InverseKinematicsController
    | MultiFingerGripperController
    | NullJointController
    | OtherController(typeName: string)

  /** One entry of `robot._controllers`: its name, class, `dof_idx` and `command_dim`. */
  datatype Controller = Controller(component: string, kind: ControllerKind, dofs: seq<nat>, commandDim: nat)

  /** One entry of `controller_info`. */
  datatype Info = Info(kind: ControllerKind, startIdx: nat, dofs: seq<nat>, commandDim: nat)

  /** One entry of `keypress_mapping`: `{"idx": ..., "val": ...}`, either of which may be None. */
  datatype KeyAction = KeyAction(idx: Option<nat>, val: Option<real>)

  /** What the event handler asks of the world besides its own attributes. */
  datatype Effect = NoEffect | VisualizeSensors | Shutdown

  /** The class names of the exceptions a teleoperation step can raise. */
  const IndexError: string := "IndexError"
  const KeyError: string := "KeyError"

  /** The names of the controllers, in order. */
  function Components(cs: seq<Controller>): (names: seq<string>)
    ensures |names| == |cs| && forall i :: 0 <= i < |cs| ==> names[i] == cs[i].component
  {
    seq(|cs|, i requires 0 <= i < |cs| => cs[i].component)
  }

  /** `robot._controllers` is a dict: no two controllers share a name. */
  predicate UniqueComponents(cs: seq<Controller>) {
    forall i, j :: 0 <= i < j < |cs| ==> cs[i].component != cs[j].component
  }

  /** The summed command dimensions of the controllers. */
  function TotalDim(cs: seq<Controller>): nat {
    if cs == [] then 0 else TotalDim(cs[..|cs| - 1]) + cs[|cs| - 1].commandDim
  }

  /**
   * `controller_info` as the constructor fills it: one entry per controller, whose command
   * starts where the commands of the controllers before it end.
   */
  function InfoTable(cs: seq<Controller>): (t: map<string, Info>)
    ensures forall n :: n in t <==> exists i :: 0 <= i < |cs| && cs[i].component == n
    ensures forall n :: n in t ==> t[n].startIdx + t[n].commandDim <= TotalDim(cs)
  {
    if cs == [] then map[]
    else
      var front := cs[..|cs| - 1];
      var c := cs[|cs| - 1];
      var t := InfoTable(front);
      assert forall n :: n in t ==> exists i :: 0 <= i < |cs| && cs[i].component == n by {
        forall n | n in t ensures exists i :: 0 <= i < |cs| && cs[i].component == n {
          var i :| 0 <= i < |front| && front[i].component == n;
          assert cs[i] == front[i];
        }
      }
      assert forall i :: 0 <= i < |cs| - 1 ==> cs[i].component in t by {
        forall i | 0 <= i < |cs| - 1 ensures cs[i].component in t {
          assert front[i] == cs[i];
        }
      }
      t[c.component := Info(c.kind, TotalDim(front), c.dofs, c.commandDim)]
  }

  /** Each controller's entry carries its own class, dofs and size, at the running offset. */
  lemma {:induction false} InfoTableOffsets(cs: seq<Controller>, j: nat)
    requires UniqueComponents(cs)
    requires j < |cs|
    ensures cs[j].component in InfoTable(cs)
    ensures InfoTable(cs)[cs[j].component] == Info(cs[j].kind, TotalDim(cs[..j]), cs[j].dofs, cs[j].commandDim)
  {
    var front := cs[..|cs| - 1];
    if j == |cs| - 1 {
      assert cs[..j] == front;
    } else {
      assert front[..j] == cs[..j];
      assert front[j] == cs[j];
      assert UniqueComponents(front) by {
        forall a, b | 0 <= a < b < |front| ensures front[a].component != front[b].component {
          assert front[a] == cs[a] && front[b] == cs[b];
        }
      }
      InfoTableOffsets(front, j);
    }
  }

  /** `start, start + 1, ..., start + n - 1` */
  function Range(start: nat, n: nat): (r: seq<nat>)
    ensures |r| == n && forall i :: 0 <= i < n ==> r[i] == start + i
  {
    if n == 0 then [] else Range(start, n - 1) + [start + n - 1]
  }

  /** `generate_ik_keypress_mapping(info)` for an arm whose command starts at `start`. */
  function IkMapping(start: nat): map<Key, KeyAction> {
    map[
      Up := KeyAction(Some(start + 0), Some(0.5)),
      Down := KeyAction(Some(start + 0), Some(-0.5)),
      Right := KeyAction(Some(start + 1), Some(-0.5)),
      Left := KeyAction(Some(start + 1), Some(0.5)),
      KeyP := KeyAction(Some(start + 2), Some(0.5)),
      Semicolon := KeyAction(Some(start + 2), Some(-0.5)),
      KeyN := KeyAction(Some(start + 3), Some(0.5)),
      KeyB := KeyAction(Some(start + 3), Some(-0.5)),
      KeyO := KeyAction(Some(start + 4), Some(0.5)),
      KeyU := KeyAction(Some(start + 4), Some(-0.5)),
      KeyV := KeyAction(Some(start + 5), Some(0.5)),
      KeyC := KeyAction(Some(start + 5), Some(-0.5))]
  }

  /** The key that moves command entry `o` of an IK arm up (`raise`) or down. */
  function IkKeyFor(o: nat, raise: bool): Key
    requires o < 6
  {
    if raise then [Up, Left, KeyP, KeyN, KeyO, KeyV][o]
    else [Down, Right, Semicolon, KeyB, KeyU, KeyC][o]
  }

  /** The IK bindings give each of the six command entries of the arm one key per direction, moving it by half a unit. */
  lemma IkMappingBindsEachEntry(start: nat)
    ensures forall o: nat, raise :: o < 6 ==>
      IkKeyFor(o, raise) in IkMapping(start)
      && IkMapping(start)[IkKeyFor(o, raise)] == KeyAction(Some(start + o), Some(if raise then 0.5 else -0.5))
  {
  }

  /** The IK bindings bind no key besides those twelve. */
  lemma IkMappingBindsNothingElse(start: nat)
    ensures forall k :: k in IkMapping(start) ==> exists o: nat, raise :: o < 6 && k == IkKeyFor(o, raise)
  {
    var m := IkMapping(start);
    forall k | k in m ensures exists o: nat, raise :: o < 6 && k == IkKeyFor(o, raise) {
      if k == Up { assert k == IkKeyFor(0, true); }
      else if k == Down { assert k == IkKeyFor(0, false); }
      else if k == Left { assert k == IkKeyFor(1, true); }
      else if k == Right { assert k == IkKeyFor(1, false); }
      else if k == KeyP { assert k == IkKeyFor(2, true); }
      else if k == Semicolon { assert k == IkKeyFor(2, false); }
      else if k == KeyN { assert k == IkKeyFor(3, true); }
      else if k == KeyB { assert k == IkKeyFor(3, false); }
      else if k == KeyO { assert k == IkKeyFor(4, true); }
      else if k == KeyU { assert k == IkKeyFor(4, false); }
      else if k == KeyV { assert k == IkKeyFor(5, true); }
      else { assert k == IkKeyFor(5, false); }
    }
  }

  /** The attributes `populate_keypress_mapping` writes. */
  datatype Bindings = Bindings(
    mapping: map<Key, KeyAction>,
    jointCommandIdx: seq<nat>,
    jointControlIdx: seq<nat>,
    ikArms: seq<string>,
    binaryGrippers: seq<string>,
    gripperDirection: map<string, real>,
    persistentGripperAction: map<string, real>)

  /**
   * The bindings as `populate_keypress_mapping` starts them: the bracket keys steer the
   * selected joint, every other table is emptied, and the arm and gripper lists are kept.
   */
  function PopulateStart(ikArms: seq<string>, binaryGrippers: seq<string>): Bindings {
    Bindings(
      map[RightBracket := KeyAction(None, Some(0.1)), LeftBracket := KeyAction(None, Some(-0.1))],
      [], [], ikArms, binaryGrippers, map[], map[])
  }

  /** What `component` adds to the bindings, by its controller class. */
  function Bind(b: Bindings, component: string, info: Info): (r: Result<Bindings, string>)
    ensures r.Failure? <==> info.kind.OtherController?
  {
    match info.kind
    case JointController =>
      Success(b.(jointCommandIdx := b.jointCommandIdx + Range(info.startIdx, info.commandDim),
                 jointControlIdx := b.jointControlIdx + info.dofs))
    case DifferentialDriveController =>
      Success(b.(mapping := b.mapping[KeyI := KeyAction(Some(info.startIdx + 0), Some(0.4))]
                                     [KeyK := KeyAction(Some(info.startIdx + 0), Some(-0.4))]
                                     [KeyL := KeyAction(Some(info.startIdx + 1), Some(-0.2))]
                                     [KeyJ := KeyAction(Some(info.startIdx + 1), Some(0.2))]))
    case InverseKinematicsController =>
      Success(b.(ikArms := b.ikArms + [component], mapping := b.mapping + IkMapping(info.startIdx)))
    case MultiFingerGripperController =>
      if info.commandDim > 1 then
        Success(b.(jointCommandIdx := b.jointCommandIdx + Range(info.startIdx, info.commandDim),
                   jointControlIdx := b.jointControlIdx + info.dofs))
      else
        Success(b.(mapping := b.mapping[KeyT := KeyAction(Some(info.startIdx), Some(1.0))],
                   gripperDirection := b.gripperDirection[component := 1.0],
                   persistentGripperAction := b.persistentGripperAction[component := 1.0],
                   binaryGrippers := b.binaryGrippers + [component]))
    case NullJointController =>
      Success(b.(mapping := b.mapping[KeyT := KeyAction(None, None)]))
    case OtherController(typeName) =>
      Failure("Unknown controller name received: " + typeName)
  }

  /** The bindings so far, and the error that stopped the loop, if one did. */
  datatype Populated = Populated(bindings: Bindings, error: Option<string>)

  /** The loop of `populate_keypress_mapping` over `names`, stopping at the first error. */
  function BindAll(b: Bindings, names: seq<string>, infos: map<string, Info>): Populated
    requires forall i :: 0 <= i < |names| ==> names[i] in infos
  {
    if names == [] then Populated(b, None)
    else
      var p := BindAll(b, names[..|names| - 1], infos);
      if p.error.Some? then p
      else match Bind(p.bindings, names[|names| - 1], infos[names[|names| - 1]])
        case Success(next) => Populated(next, None)
        case Failure(e) => Populated(p.bindings, Some(e))
  }

  lemma BindAllStep(b: Bindings, names: seq<string>, infos: map<string, Info>, i: nat)
    requires forall k :: 0 <= k < |names| ==> names[k] in infos
    requires i < |names|
    ensures BindAll(b, names[..i + 1], infos) ==
      var p := BindAll(b, names[..i], infos);
      if p.error.Some? then p
      else match Bind(p.bindings, names[i], infos[names[i]])
        case Success(next) => Populated(next, None)
        case Failure(e) => Populated(p.bindings, Some(e))
  {
    assert names[..i + 1][..i] == names[..i];
  }

  /** Once a controller fails, the controllers after it change nothing. */
  lemma {:induction false} BindAllStaysFailed(b: Bindings, names: seq<string>, infos: map<string, Info>, i: nat)
    requires forall k :: 0 <= k < |names| ==> names[k] in infos
    requires i <= |names|
    requires BindAll(b, names[..i], infos).error.Some?
    ensures BindAll(b, names, infos) == BindAll(b, names[..i], infos)
  {
    if i == |names| {
      assert names[..i] == names;
    } else {
      var front := names[..|names| - 1];
      assert front[..i] == names[..i];
      BindAllStaysFailed(b, front, infos, i);
    }
  }

  /**
   * Populating fails exactly when some controller has a class the bindings do not know; the
   * error names the first such class, and the controllers before it stay bound.
   */
  lemma {:induction false} PopulateFailsOnUnknown(b: Bindings, names: seq<string>, infos: map<string, Info>)
    requires forall k :: 0 <= k < |names| ==> names[k] in infos
    ensures BindAll(b, names, infos).error.Some? <==>
      exists i :: 0 <= i < |names| && infos[names[i]].kind.OtherController?
    ensures BindAll(b, names, infos).error.Some? ==> exists i ::
      0 <= i < |names| && infos[names[i]].kind.OtherController?
      && (forall j :: 0 <= j < i ==> !infos[names[j]].kind.OtherController?)
      && BindAll(b, names, infos).error.value == "Unknown controller name received: " + infos[names[i]].kind.typeName
      && BindAll(b, names, infos).bindings == BindAll(b, names[..i], infos).bindings
  {
    if names != [] {
      var n := |names| - 1;
      var front := names[..n];
      PopulateFailsOnUnknown(b, front, infos);
      assert forall k :: 0 <= k < n ==> front[k] == names[k];
      var p := BindAll(b, front, infos);
      if p.error.Some? {
        var i :| 0 <= i < n && infos[front[i]].kind.OtherController?
          && (forall j :: 0 <= j < i ==> !infos[front[j]].kind.OtherController?)
          && p.error.value == "Unknown controller name received: " + infos[front[i]].kind.typeName
          && p.bindings == BindAll(b, front[..i], infos).bindings;
        assert front[..i] == names[..i];
      } else if infos[names[n]].kind.OtherController? {
        assert names[..n] == front;
      }
    }
  }

  /** Every binary gripper starts open and pushing: direction and persistent action 1.0. */
  predicate GrippersAtRest(b: Bindings) {
    forall g :: g in b.gripperDirection ==>
      b.gripperDirection[g] == 1.0 && g in b.persistentGripperAction && b.persistentGripperAction[g] == 1.0
  }

  /**
   * Populating keeps the grippers at rest, keeps the gripper list it started with as a prefix,
   * and gives each gripper it adds a direction.
   */
  lemma {:induction false} PopulateGrippersAtRest(b: Bindings, names: seq<string>, infos: map<string, Info>)
    requires forall k :: 0 <= k < |names| ==> names[k] in infos
    requires GrippersAtRest(b)
    ensures var r := BindAll(b, names, infos).bindings;
      GrippersAtRest(r)
      && |b.binaryGrippers| <= |r.binaryGrippers| && r.binaryGrippers[..|b.binaryGrippers|] == b.binaryGrippers
      && forall j :: |b.binaryGrippers| <= j < |r.binaryGrippers| ==> r.binaryGrippers[j] in r.gripperDirection
  {
    if names != [] {
      var n := |names| - 1;
      var front := names[..n];
      PopulateGrippersAtRest(b, front, infos);
      var p := BindAll(b, front, infos);
      if p.error.None? {
        var r := Bind(p.bindings, names[n], infos[names[n]]);
        if r.Success? {
          var q := p.bindings;
          assert r.value.gripperDirection.Keys >= q.gripperDirection.Keys;
          assert r.value.binaryGrippers[..|q.binaryGrippers|] == q.binaryGrippers;
          assert r.value.binaryGrippers[..|b.binaryGrippers|] == q.binaryGrippers[..|b.binaryGrippers|];
        }
      }
    }
  }

  /** Every joint command index populating records addresses a slot below `bound`. */
  lemma {:induction false} JointCommandsFit(b: Bindings, names: seq<string>, infos: map<string, Info>, bound: nat)
    requires forall k :: 0 <= k < |names| ==> names[k] in infos
    requires forall x :: x in b.jointCommandIdx ==> x < bound
    requires forall n :: n in infos ==> infos[n].startIdx + infos[n].commandDim <= bound
    ensures forall x :: x in BindAll(b, names, infos).bindings.jointCommandIdx ==> x < bound
  {
    if names != [] {
      var n := |names| - 1;
      JointCommandsFit(b, names[..n], infos, bound);
    }
  }

  /** For a robot's own table, the joint command indices all lie inside its action vector. */
  lemma PopulatedJointCommandsFit(cs: seq<Controller>, ikArms: seq<string>, binaryGrippers: seq<string>)
    ensures var p := BindAll(PopulateStart(ikArms, binaryGrippers), Components(cs), InfoTable(cs));
      forall x :: x in p.bindings.jointCommandIdx ==> x < TotalDim(cs)
  {
    JointCommandsFit(PopulateStart(ikArms, binaryGrippers), Components(cs), InfoTable(cs), TotalDim(cs));
  }

  /** Which branch of the event handler a pressed key takes. */
  datatype Branch = SelectJoint | SelectArm | SelectGripper | Visualize | Quit | Act

  function BranchOf(key: Key, joints: nat, arms: nat, grippers: nat): Branch {
    if (key == Key1 || key == Key2) && joints > 1 then SelectJoint
    else if (key == Key3 || key == Key4) && arms > 1 then SelectArm
    else if (key == Key5 || key == Key6) && grippers > 1 then SelectGripper
    else if key == KeyR then Visualize
    else if key == Escape then Quit
    else Act
  }

  /**
   * `max(0, i - 1)` stepping down and `min(n - 1, i + 1)` stepping up: a selection among `n`
   * moves by one and stops at either end.
   */
  function Shift(i: nat, down: bool, n: nat): (r: nat)
    requires n > 0
    ensures i < n ==> r < n
    ensures down ==> r == if i == 0 then 0 else i - 1
    ensures !down && i < n ==> r == if i + 1 < n then i + 1 else i
  {
    if down then (if i < 1 then 0 else i - 1)
    else if n - 1 < i + 1 then n - 1 else i + 1
  }

  /** What the event handler reads and writes: selections, bindings, pressed key, action, toggle. */
  datatype Pad = Pad(
    joint: nat, arm: nat, gripper: nat, mapping: map<Key, KeyAction>,
    keypress: Option<Key>, action: Option<KeyAction>, toggling: bool)

  /**
   * The special cases of a press or repeat of `key`, with `joints` joints, the IK arms `arms`
   * and `grippers` binary grippers to choose from.
   */
  function Press(pad: Pad, key: Key, joints: nat, arms: seq<string>, grippers: nat, infos: map<string, Info>): (Pad, Effect)
    requires pad.arm == 0 || pad.arm < |arms|
    requires forall a :: a in arms ==> a in infos
  {
    match BranchOf(key, joints, |arms|, grippers)
    case SelectJoint => (pad.(joint := Shift(pad.joint, key == Key1, joints)), NoEffect)
    case SelectArm =>
      var arm := Shift(pad.arm, key == Key3, |arms|);
      (pad.(arm := arm, mapping := pad.mapping + IkMapping(infos[arms[arm]].startIdx)), NoEffect)
    case SelectGripper => (pad.(gripper := Shift(pad.gripper, key == Key5, grippers)), NoEffect)
    case Visualize => (pad, VisualizeSensors)
    case Quit => (pad, Shutdown)
    case Act => (pad.(action := if key in pad.mapping then Some(pad.mapping[key]) else None), NoEffect)
  }

  /**
   * `keyboard_event_handler(event)` on the handler's attributes: a press or repeat goes through
   * `Press`, and a press is also remembered, T marking a pending gripper toggle; a release
   * clears the active action and key; any other event changes nothing.
   */
  function HandleEvent(pad: Pad, event: KeyEvent, joints: nat, arms: seq<string>, grippers: nat, infos: map<string, Info>): (Pad, Effect)
    requires pad.arm == 0 || pad.arm < |arms|
    requires forall a :: a in arms ==> a in infos
  {
    if PressOrRepeat(event) then
      var (next, effect) := Press(pad, event.input, joints, arms, grippers, infos);
      if event.kind == KeyPress then
        (next.(keypress := Some(event.input), toggling := next.toggling || event.input == KeyT), effect)
      else (next, effect)
    else if event.kind == KeyRelease then (pad.(action := None, keypress := None), NoEffect)
    else (pad, NoEffect)
  }

  /** Proof step: the `SelectArm` case of `Press`, unfolded once so that callers in a heap context need not. */
  lemma PressSelectsArm(pad: Pad, key: Key, joints: nat, arms: seq<string>, grippers: nat, infos: map<string, Info>)
    requires pad.arm == 0 || pad.arm < |arms|
    requires forall a :: a in arms ==> a in infos
    requires BranchOf(key, joints, |arms|, grippers) == SelectArm
    ensures var arm := Shift(pad.arm, key == Key3, |arms|);
      arm < |arms|
      && Press(pad, key, joints, arms, grippers, infos)
         == (pad.(arm := arm, mapping := pad.mapping + IkMapping(infos[arms[arm]].startIdx)), NoEffect)
  {
  }

  /** Proof step: the `SelectJoint` and `SelectGripper` cases of `Press`, unfolded once. */
  lemma PressSelectsJointOrGripper(pad: Pad, key: Key, joints: nat, arms: seq<string>, grippers: nat, infos: map<string, Info>)
    requires pad.arm == 0 || pad.arm < |arms|
    requires forall a :: a in arms ==> a in infos
    requires BranchOf(key, joints, |arms|, grippers) in {SelectJoint, SelectGripper}
    ensures Press(pad, key, joints, arms, grippers, infos)
      == (if BranchOf(key, joints, |arms|, grippers) == SelectJoint
          then pad.(joint := Shift(pad.joint, key == Key1, joints))
          else pad.(gripper := Shift(pad.gripper, key == Key5, grippers)), NoEffect)
  {
  }

  /** Proof step: the `Visualize`, `Quit` and `Act` cases of `Press`, unfolded once. */
  lemma PressPlain(pad: Pad, key: Key, joints: nat, arms: seq<string>, grippers: nat, infos: map<string, Info>)
    requires pad.arm == 0 || pad.arm < |arms|
    requires forall a :: a in arms ==> a in infos
    requires BranchOf(key, joints, |arms|, grippers) in {Visualize, Quit, Act}
    ensures Press(pad, key, joints, arms, grippers, infos)
      == (if key == KeyR then (pad, VisualizeSensors)
          else if key == Escape then (pad, Shutdown)
          else (pad.(action := if key in pad.mapping then Some(pad.mapping[key]) else None), NoEffect))
  {
  }

  /** Proof step: the press-or-repeat case of `HandleEvent`, unfolded once. */
  lemma HandleEventOnPress(pad: Pad, event: KeyEvent, joints: nat, arms: seq<string>, grippers: nat, infos: map<string, Info>,
                           next: Pad, effect: Effect)
    requires pad.arm == 0 || pad.arm < |arms|
    requires forall a :: a in arms ==> a in infos
    requires PressOrRepeat(event)
    requires (next, effect) == Press(pad, event.input, joints, arms, grippers, infos)
    ensures HandleEvent(pad, event, joints, arms, grippers, infos)
      == (if event.kind == KeyPress
          then next.(keypress := Some(event.input), toggling := next.toggling || event.input == KeyT)
          else next, effect)
  {
  }

  /**
   * What an event asks of the world, and what it leaves alone: R asks for the sensors'
   * visualisation and Escape for shutdown, each leaving every attribute but the remembered key
   * as it was; a press remembers its key and a repeat keeps the one before; only keys 3 and 4
   * with several IK arms rebind keys.
   */
  lemma HandleEventEffects(pad: Pad, event: KeyEvent, joints: nat, arms: seq<string>, grippers: nat, infos: map<string, Info>)
    requires pad.arm == 0 || pad.arm < |arms|
    requires forall a :: a in arms ==> a in infos
    ensures var (next, effect) := HandleEvent(pad, event, joints, arms, grippers, infos);
      (effect == VisualizeSensors <==> PressOrRepeat(event) && event.input == KeyR)
      && (effect == Shutdown <==> PressOrRepeat(event) && event.input == Escape)
      && (PressOrRepeat(event) && (event.input == KeyR || event.input == Escape) ==> next == pad.(keypress := next.keypress))
      && (PressOrRepeat(event) ==> next.keypress == if event.kind == KeyPress then Some(event.input) else pad.keypress)
      && (next.mapping != pad.mapping ==> PressOrRepeat(event) && (event.input == Key3 || event.input == Key4) && |arms| > 1)
  {
    if PressOrRepeat(event) {
      var b := BranchOf(event.input, joints, |arms|, grippers);
      var (next, effect) := Press(pad, event.input, joints, arms, grippers, infos);
      HandleEventOnPress(pad, event, joints, arms, grippers, infos, next, effect);
      if b == SelectArm {
        PressSelectsArm(pad, event.input, joints, arms, grippers, infos);
      } else if b == SelectJoint || b == SelectGripper {
        PressSelectsJointOrGripper(pad, event.input, joints, arms, grippers, infos);
      } else {
        PressPlain(pad, event.input, joints, arms, grippers, infos);
      }
    }
  }

  /**
   * A press or repeat of a key that selects nothing, R and Escape aside, makes the key's
   * binding the active action, or None for an unbound key; the selections and the bindings
   * stay, and the pending toggle is only ever set.
   */
  lemma PlainKeyActs(pad: Pad, event: KeyEvent, joints: nat, arms: seq<string>, grippers: nat, infos: map<string, Info>)
    requires pad.arm == 0 || pad.arm < |arms|
    requires forall a :: a in arms ==> a in infos
    requires PressOrRepeat(event) && BranchOf(event.input, joints, |arms|, grippers) == Act
    ensures var next := HandleEvent(pad, event, joints, arms, grippers, infos).0;
      next.action == (if event.input in pad.mapping then Some(pad.mapping[event.input]) else None)
      && next.joint == pad.joint && next.arm == pad.arm && next.gripper == pad.gripper
      && next.mapping == pad.mapping && (pad.toggling ==> next.toggling)
  {
    var (next, effect) := Press(pad, event.input, joints, arms, grippers, infos);
    PressPlain(pad, event.input, joints, arms, grippers, infos);
    HandleEventOnPress(pad, event, joints, arms, grippers, infos, next, effect);
  }

  /** Each selection stays among the choices it has, and the arm's still has an entry. */
  predicate InRange(pad: Pad, joints: nat, arms: nat, grippers: nat) {
    (pad.joint == 0 || pad.joint < joints) && (pad.arm == 0 || pad.arm < arms)
    && (pad.gripper == 0 || pad.gripper < grippers)
  }

  /** A press never moves a selection out of range. */
  lemma PressKeepsRange(pad: Pad, key: Key, joints: nat, arms: seq<string>, grippers: nat, infos: map<string, Info>)
    requires InRange(pad, joints, |arms|, grippers)
    requires forall a :: a in arms ==> a in infos
    ensures InRange(Press(pad, key, joints, arms, grippers, infos).0, joints, |arms|, grippers)
  {
    var branch := BranchOf(key, joints, |arms|, grippers);
    if branch == SelectArm {
      PressSelectsArm(pad, key, joints, arms, grippers, infos);
    } else if branch == SelectJoint || branch == SelectGripper {
      PressSelectsJointOrGripper(pad, key, joints, arms, grippers, infos);
    } else {
      PressPlain(pad, key, joints, arms, grippers, infos);
    }
  }

  /** The handler never moves a selection out of range. */
  lemma HandleEventKeepsRange(pad: Pad, event: KeyEvent, joints: nat, arms: seq<string>, grippers: nat, infos: map<string, Info>)
    requires InRange(pad, joints, |arms|, grippers)
    requires forall a :: a in arms ==> a in infos
    ensures InRange(HandleEvent(pad, event, joints, arms, grippers, infos).0, joints, |arms|, grippers)
  {
    if PressOrRepeat(event) {
      var pressed := Press(pad, event.input, joints, arms, grippers, infos);
      HandleEventOnPress(pad, event, joints, arms, grippers, infos, pressed.0, pressed.1);
      PressKeepsRange(pad, event.input, joints, arms, grippers, infos);
    }
  }


  /**
   * A press or repeat of a selection key with more than one choice moves that selection by one
   * towards the key's end and stops there; the other selections stay put.
   */
  lemma SelectionMovesByOne(pad: Pad, event: KeyEvent, joints: nat, arms: seq<string>, grippers: nat, infos: map<string, Info>)
    requires InRange(pad, joints, |arms|, grippers)
    requires forall a :: a in arms ==> a in infos
    requires PressOrRepeat(event) && event.input in {Key1, Key2} && joints > 1
    ensures var next := HandleEvent(pad, event, joints, arms, grippers, infos).0;
      next.arm == pad.arm && next.gripper == pad.gripper && next.action == pad.action
      && (event.input == Key1 ==> next.joint == if pad.joint == 0 then 0 else pad.joint - 1)
      && (event.input == Key2 ==> next.joint == if pad.joint + 1 < joints then pad.joint + 1 else pad.joint)
  {
    PressSelectsJointOrGripper(pad, event.input, joints, arms, grippers, infos);
  }

  /** Selecting another arm under IK rebinds the twelve IK keys to that arm's command. */
  lemma ArmSelectionRebindsIk(pad: Pad, event: KeyEvent, joints: nat, arms: seq<string>, grippers: nat, infos: map<string, Info>)
    requires InRange(pad, joints, |arms|, grippers)
    requires forall a :: a in arms ==> a in infos
    requires PressOrRepeat(event) && event.input in {Key3, Key4} && |arms| > 1
    ensures var next := HandleEvent(pad, event, joints, arms, grippers, infos).0;
      next.arm < |arms|
      && forall o: nat, raise :: o < 6 ==>
           IkKeyFor(o, raise) in next.mapping
           && next.mapping[IkKeyFor(o, raise)]
              == KeyAction(Some(infos[arms[next.arm]].startIdx + o), Some(if raise then 0.5 else -0.5))
  {
    var arm := Shift(pad.arm, event.input == Key3, |arms|);
    var start := infos[arms[arm]].startIdx;
    PressSelectsArm(pad, event.input, joints, arms, grippers, infos);
    var next := HandleEvent(pad, event, joints, arms, grippers, infos).0;
    assert next.arm == arm && next.mapping == pad.mapping + IkMapping(start);
    IkMappingBindsEachEntry(start);
  }

  /**
   * Only a press of T marks a gripper toggle, and releasing a key clears the key and the
   * active action and nothing else.
   */
  lemma ToggleAndRelease(pad: Pad, event: KeyEvent, joints: nat, arms: seq<string>, grippers: nat, infos: map<string, Info>)
    requires pad.arm == 0 || pad.arm < |arms|
    requires forall a :: a in arms ==> a in infos
    ensures var (next, effect) := HandleEvent(pad, event, joints, arms, grippers, infos);
      (next.toggling <==> pad.toggling || (event.kind == KeyPress && event.input == KeyT))
      && (event.kind == KeyRelease ==> next == pad.(action := None, keypress := None) && effect == NoEffect)
  {
  }

  /** The gripper attributes a teleoperation step updates. */
  datatype Grip = Grip(direction: map<string, real>, persistent: map<string, real>, toggling: bool)

  /** A step's gripper attributes and action vector, and the exception it raised, if one. */
  datatype Pass = Pass(grip: Grip, action: seq<real>, error: Option<string>)

  /**
   * Where an action writes: its own index, or else the command index of the selected joint;
   * None when the selection is past the end of the joint command list.
   */
  function ActiveIndex(a: KeyAction, jointCommandIdx: seq<nat>, jointIdx: nat): Option<nat> {
    if a.idx.Some? then a.idx
    else if jointIdx < |jointCommandIdx| then Some(jointCommandIdx[jointIdx])
    else None
  }

  /**
   * The action vector before the grippers: zeros, with the active action's value at the index
   * it writes. An action without a value writes nothing; an index outside the list or the
   * vector raises.
   */
  function ActiveWrite(active: Option<KeyAction>, jointCommandIdx: seq<nat>, jointIdx: nat, dim: nat): (r: Result<seq<real>, string>)
    ensures r.Success? ==> |r.value| == dim
    ensures r.Success? ==> forall j :: 0 <= j < dim && r.value[j] != 0.0 ==>
      active.Some? && active.value.val == Some(r.value[j]) && ActiveIndex(active.value, jointCommandIdx, jointIdx) == Some(j)
    ensures r.Success? && active.Some? && active.value.val.Some? ==>
      var i := ActiveIndex(active.value, jointCommandIdx, jointIdx);
      i.Some? && i.value < dim && r.value[i.value] == active.value.val.value
    ensures r.Failure? <==>
      active.Some? && active.value.val.Some?
      && (ActiveIndex(active.value, jointCommandIdx, jointIdx).None?
          || dim <= ActiveIndex(active.value, jointCommandIdx, jointIdx).value)
    ensures r.Failure? ==> r.error == IndexError
  {
    var zero := seq(dim, _ => 0.0);
    if active.None? || active.value.val.None? then Success(zero)
    else
      var idx := ActiveIndex(active.value, jointCommandIdx, jointIdx);
      if idx.None? || dim <= idx.value then Failure(IndexError)
      else Success(zero[idx.value := active.value.val.value])
  }

  /** The persistent action of a toggled gripper: the toggle key's value times its direction. */
  function GripperCommand(tval: real, direction: real): real {
    tval * direction
  }

  /**
   * One gripper of the loop at position `i`: toggled first if it is the selected gripper and
   * a toggle is pending, then its persistent action written at its command's start.
   */
  function GripperWrite(p: Pass, g: string, i: nat, activeIdx: nat, tval: real, infos: map<string, Info>): Pass {
    var gr := p.grip;
    var toggle := gr.toggling && i == activeIdx;
    if toggle && g !in gr.direction then Pass(gr, p.action, Some(KeyError))
    else
      var gr' := if toggle then
        var d := gr.direction[g] * -1.0;
        Grip(gr.direction[g := d], gr.persistent[g := GripperCommand(tval, d)], false)
      else gr;
      if g !in gr'.persistent || g !in infos then Pass(gr', p.action, Some(KeyError))
      else if |p.action| <= infos[g].startIdx then Pass(gr', p.action, Some(IndexError))
      else Pass(gr', p.action[infos[g].startIdx := gr'.persistent[g]], None)
  }

  /** The loop over `binary_grippers`, stopping at the first exception. */
  function GripperPass(grip: Grip, action: seq<real>, grippers: seq<string>, activeIdx: nat, tval: real, infos: map<string, Info>): Pass {
    if grippers == [] then Pass(grip, action, None)
    else
      var n := |grippers| - 1;
      var p := GripperPass(grip, action, grippers[..n], activeIdx, tval, infos);
      if p.error.Some? then p else GripperWrite(p, grippers[n], n, activeIdx, tval, infos)
  }

  lemma GripperPassStep(grip: Grip, action: seq<real>, grippers: seq<string>, activeIdx: nat, tval: real, infos: map<string, Info>, i: nat)
    requires i < |grippers|
    ensures GripperPass(grip, action, grippers[..i + 1], activeIdx, tval, infos) ==
      var p := GripperPass(grip, action, grippers[..i], activeIdx, tval, infos);
      if p.error.Some? then p else GripperWrite(p, grippers[i], i, activeIdx, tval, infos)
  {
    assert grippers[..i + 1][..i] == grippers[..i];
  }

  lemma {:induction false} GripperPassStaysFailed(grip: Grip, action: seq<real>, grippers: seq<string>, activeIdx: nat, tval: real, infos: map<string, Info>, i: nat)
    requires i <= |grippers|
    requires GripperPass(grip, action, grippers[..i], activeIdx, tval, infos).error.Some?
    ensures GripperPass(grip, action, grippers, activeIdx, tval, infos) == GripperPass(grip, action, grippers[..i], activeIdx, tval, infos)
  {
    if i == |grippers| {
      assert grippers[..i] == grippers;
    } else {
      var front := grippers[..|grippers| - 1];
      assert front[..i] == grippers[..i];
      GripperPassStaysFailed(grip, action, front, activeIdx, tval, infos, i);
    }
  }

  /** The gripper attributes after a pending toggle of the selected gripper, if there is one. */
  function Toggled(grip: Grip, grippers: seq<string>, activeIdx: nat, tval: real): Grip {
    if grip.toggling && activeIdx < |grippers| && grippers[activeIdx] in grip.direction then
      var g := grippers[activeIdx];
      var d := grip.direction[g] * -1.0;
      Grip(grip.direction[g := d], grip.persistent[g := GripperCommand(tval, d)], false)
    else grip
  }

  /**
   * A completed gripper loop toggles at most the selected gripper, once: its direction flips,
   * its persistent action becomes the toggle value in the new direction, and the pending
   * toggle is cleared; nothing else changes. A selected gripper with no direction raises.
   */
  lemma {:induction false} GripperPassTogglesSelected(grip: Grip, action: seq<real>, grippers: seq<string>, activeIdx: nat, tval: real, infos: map<string, Info>)
    ensures var p := GripperPass(grip, action, grippers, activeIdx, tval, infos);
      p.error.None? ==>
        p.grip == Toggled(grip, grippers, activeIdx, tval)
        && (grip.toggling && activeIdx < |grippers| ==> grippers[activeIdx] in grip.direction)
  {
    if grippers != [] {
      var n := |grippers| - 1;
      var front := grippers[..n];
      GripperPassTogglesSelected(grip, action, front, activeIdx, tval, infos);
      var p := GripperPass(grip, action, front, activeIdx, tval, infos);
      if p.error.None? {
        var q := GripperWrite(p, grippers[n], n, activeIdx, tval, infos);
        assert GripperPass(grip, action, grippers, activeIdx, tval, infos) == q;
        if grip.toggling && activeIdx < n {
          assert front[activeIdx] == grippers[activeIdx];
          assert |front| == n;
          assert front[activeIdx] in grip.direction;
          assert !p.grip.toggling;
          assert q.grip == p.grip;
          assert Toggled(grip, grippers, activeIdx, tval) == Toggled(grip, front, activeIdx, tval);
        } else {
          assert p.grip == grip;
        }
      }
    }
  }

  /** A completed gripper loop keeps the vector's length and writes only at grippers' slots. */
  lemma {:induction false} GripperPassWritesSlots(grip: Grip, action: seq<real>, grippers: seq<string>, activeIdx: nat, tval: real, infos: map<string, Info>)
    ensures var p := GripperPass(grip, action, grippers, activeIdx, tval, infos);
      p.error.None? ==>
        |p.action| == |action|
        && forall j :: 0 <= j < |action| && p.action[j] != action[j] ==>
          exists k :: 0 <= k < |grippers| && grippers[k] in infos && infos[grippers[k]].startIdx == j
  {
    if grippers != [] {
      var n := |grippers| - 1;
      var front := grippers[..n];
      GripperPassWritesSlots(grip, action, front, activeIdx, tval, infos);
      var p := GripperPass(grip, action, front, activeIdx, tval, infos);
      if p.error.None? {
        assert forall k :: 0 <= k < n ==> front[k] == grippers[k];
      }
    }
  }

  /** `get_teleop_action` on the controller's attributes, `grip` being the gripper attributes. */
  function Teleop(dim: nat, active: Option<KeyAction>, jointCommandIdx: seq<nat>, jointIdx: nat,
                  mapping: map<Key, KeyAction>, grippers: seq<string>, activeGripper: nat,
                  infos: map<string, Info>, grip: Grip): Pass
  {
    match ActiveWrite(active, jointCommandIdx, jointIdx, dim)
    case Failure(e) => Pass(grip, [], Some(e))
    case Success(action) =>
      if |grippers| == 0 then Pass(grip, action, None)
      else if KeyT !in mapping then Pass(grip, action, Some(KeyError))
      else if mapping[KeyT].val.None? then Pass(grip, action, None)
      else GripperPass(grip, action, grippers, activeGripper, mapping[KeyT].val.value, infos)
  }

  /**
   * A teleoperation step that completes gives a vector of the action size that is zero except
   * at the active action's slot and at the binary grippers' slots.
   */
  lemma TeleopWritesOnlySlots(dim: nat, active: Option<KeyAction>, jointCommandIdx: seq<nat>, jointIdx: nat,
                              mapping: map<Key, KeyAction>, grippers: seq<string>, activeGripper: nat,
                              infos: map<string, Info>, grip: Grip)
    ensures var p := Teleop(dim, active, jointCommandIdx, jointIdx, mapping, grippers, activeGripper, infos, grip);
      p.error.None? ==>
        |p.action| == dim
        && forall j :: 0 <= j < dim && p.action[j] != 0.0 ==>
          (active.Some? && active.value.val == Some(p.action[j])
           && ActiveIndex(active.value, jointCommandIdx, jointIdx) == Some(j))
          || exists k :: 0 <= k < |grippers| && grippers[k] in infos && infos[grippers[k]].startIdx == j
  {
    var w := ActiveWrite(active, jointCommandIdx, jointIdx, dim);
    if w.Success? && |grippers| > 0 && KeyT in mapping && mapping[KeyT].val.Some? {
      GripperPassWritesSlots(grip, w.value, grippers, activeGripper, mapping[KeyT].val.value, infos);
    }
  }

  /** A teleoperation step that completes toggles at most the selected binary gripper. */
  lemma TeleopTogglesSelected(dim: nat, active: Option<KeyAction>, jointCommandIdx: seq<nat>, jointIdx: nat,
                              mapping: map<Key, KeyAction>, grippers: seq<string>, activeGripper: nat,
                              infos: map<string, Info>, grip: Grip)
    ensures var p := Teleop(dim, active, jointCommandIdx, jointIdx, mapping, grippers, activeGripper, infos, grip);
      p.error.None? ==>
        p.grip == if |grippers| > 0 && KeyT in mapping && mapping[KeyT].val.Some?
                  then Toggled(grip, grippers, activeGripper, mapping[KeyT].val.value)
                  else grip
  {
    var w := ActiveWrite(active, jointCommandIdx, jointIdx, dim);
    if w.Success? && |grippers| > 0 && KeyT in mapping && mapping[KeyT].val.Some? {
      GripperPassTogglesSelected(grip, w.value, grippers, activeGripper, mapping[KeyT].val.value, infos);
    }
  }

  class KeyboardRobotController {
    /** `robot.action_dim` */
    const actionDim: nat
    /** The controllers' names in order, the keys of `controller_info`. */
    const controllerNames: seq<string>
    /** `controller_info` */
    const controllerInfo: map<string, Info>
    /** `joint_names`, read only by the joint-selection printout, which is not modelled. */
    const jointNames: seq<string>
    /** `joint_command_idx` and `joint_control_idx`: None before populating, modelled as empty. */
    var jointCommandIdx: seq<nat>
    var jointControlIdx: seq<nat>
    var activeJointCommandIdxIdx: nat
    var ikArms: seq<string>
    var activeArmIdx: nat
    var binaryGrippers: seq<string>
    var activeGripperIdx: nat
    /** `gripper_direction` and `persistent_gripper_action`: None before populating, modelled as empty. */
    var gripperDirection: map<string, real>
    var persistentGripperAction: map<string, real>
    /** `keypress_mapping`: None before populating, modelled as empty. */
    var keypressMapping: map<Key, KeyAction>
    var currentKeypress: Option<Key>
    var activeAction: Option<KeyAction>
    var togglingGripper: bool

    /** Every controller has its table entry, and so has every arm, the selected one in range. */
    ghost predicate Valid()
      reads this
    {
      (forall i :: 0 <= i < |controllerNames| ==> controllerNames[i] in controllerInfo)
      && ArmsKnown() && ArmInRange()
    }

    /** Every IK arm has its table entry. */
    ghost predicate ArmsKnown()
      reads this
    {
      forall a :: a in ikArms ==> a in controllerInfo
    }

    /** The selected arm is one of the IK arms, or the first when there is none. */
    predicate ArmInRange()
      reads this
    {
      activeArmIdx == 0 || activeArmIdx < |ikArms|
    }

    /** The joint and gripper selections are in range too. */
    predicate SelectionsInRange()
      reads this
    {
      (activeJointCommandIdxIdx == 0 || activeJointCommandIdxIdx < |jointControlIdx|)
      && (activeGripperIdx == 0 || activeGripperIdx < |binaryGrippers|)
    }

    /** The attributes `populate_keypress_mapping` writes. */
    function CurrentBindings(): Bindings
      reads this
    {
      Bindings(keypressMapping, jointCommandIdx, jointControlIdx, ikArms, binaryGrippers,
               gripperDirection, persistentGripperAction)
    }

    /** The attributes the gripper loop of `get_teleop_action` writes. */
    function CurrentGrip(): Grip
      reads this
    {
      Grip(gripperDirection, persistentGripperAction, togglingGripper)
    }

    /**
     * The part of `__init__` before populating: the controller table with running command
     * offsets, and every selection, binding and pending key cleared.
     */
    constructor (controllers: seq<Controller>, actionDim: nat, jointNames: seq<string>)
      ensures Valid() && SelectionsInRange()
      ensures this.actionDim == actionDim && this.jointNames == jointNames
      ensures controllerNames == Components(controllers) && controllerInfo == InfoTable(controllers)
      ensures CurrentBindings() == Bindings(map[], [], [], [], [], map[], map[])
      ensures activeJointCommandIdxIdx == 0 && activeArmIdx == 0 && activeGripperIdx == 0
      ensures currentKeypress == None && activeAction == None && !togglingGripper
    {
      var info: map<string, Info> := map[];
      var idx := 0;
      var i := 0;
      while i < |controllers|
        invariant i <= |controllers|
        invariant info == InfoTable(controllers[..i])
        invariant idx == TotalDim(controllers[..i])
      {
        var c := controllers[i];
        assert controllers[..i + 1][..i] == controllers[..i];
        info := info[c.component := Info(c.kind, idx, c.dofs, c.commandDim)];
        idx := idx + c.commandDim;
        i := i + 1;
      }
      assert controllers[..i] == controllers;
      this.actionDim := actionDim;
      this.jointNames := jointNames;
      controllerNames := Components(controllers);
      controllerInfo := info;
      jointCommandIdx := [];
      jointControlIdx := [];
      activeJointCommandIdxIdx := 0;
      ikArms := [];
      activeArmIdx := 0;
      binaryGrippers := [];
      activeGripperIdx := 0;
      gripperDirection := map[];
      persistentGripperAction := map[];
      keypressMapping := map[];
      currentKeypress := None;
      activeAction := None;
      togglingGripper := false;
    }

    /** The selections, the pressed key, the active action and the pending toggle. */
    function Focus(): (nat, nat, nat, Option<Key>, Option<KeyAction>, bool)
      reads this
    {
      (activeJointCommandIdxIdx, activeArmIdx, activeGripperIdx, currentKeypress, activeAction, togglingGripper)
    }

    /** The body of the loop of `populate_keypress_mapping` for one controller. */
    method BindController(component: string, info: Info) returns (r: Result<(), string>)
      requires Valid() && component in controllerInfo
      modifies this
      ensures Valid() && Focus() == old(Focus())
      ensures match Bind(old(CurrentBindings()), component, info)
        case Success(next) => r.Success? && CurrentBindings() == next
        case Failure(e) => r == Failure(e) && CurrentBindings() == old(CurrentBindings())
    {
      match info.kind {
        case JointController =>
          AppendCommands(info);
        case DifferentialDriveController =>
          BindDrive(info);
        case InverseKinematicsController =>
          ikArms := ikArms + [component];
          keypressMapping := keypressMapping + IkMapping(info.startIdx);
        case MultiFingerGripperController =>
          if info.commandDim > 1 {
            AppendCommands(info);
          } else {
            BindBinaryGripper(component, info);
          }
        case NullJointController =>
          keypressMapping := keypressMapping[KeyT := KeyAction(None, None)];
        case OtherController(typeName) =>
          return Failure("Unknown controller name received: " + typeName);
      }
      r := Success(());
    }

    /** The command indices and joint indices of a directly controlled joint group. */
    method AppendCommands(info: Info)
      modifies this
      ensures CurrentBindings() == old(CurrentBindings()).(
        jointCommandIdx := old(jointCommandIdx) + Range(info.startIdx, info.commandDim),
        jointControlIdx := old(jointControlIdx) + info.dofs)
      ensures Focus() == old(Focus())
    {
      var i := 0;
      while i < info.commandDim
        invariant i <= info.commandDim
        invariant CurrentBindings() == old(CurrentBindings()).(jointCommandIdx := old(jointCommandIdx) + Range(info.startIdx, i))
        invariant Focus() == old(Focus())
      {
        jointCommandIdx := jointCommandIdx + [info.startIdx + i];
        i := i + 1;
      }
      jointControlIdx := jointControlIdx + info.dofs;
    }

    /** The drive keys: I and K move forward and back, L and J turn. */
    method BindDrive(info: Info)
      modifies this
      ensures CurrentBindings() == old(CurrentBindings()).(mapping :=
        old(keypressMapping)[KeyI := KeyAction(Some(info.startIdx + 0), Some(0.4))]
                            [KeyK := KeyAction(Some(info.startIdx + 0), Some(-0.4))]
                            [KeyL := KeyAction(Some(info.startIdx + 1), Some(-0.2))]
                            [KeyJ := KeyAction(Some(info.startIdx + 1), Some(0.2))])
      ensures Focus() == old(Focus())
    {
      keypressMapping := keypressMapping[KeyI := KeyAction(Some(info.startIdx + 0), Some(0.4))];
      keypressMapping := keypressMapping[KeyK := KeyAction(Some(info.startIdx + 0), Some(-0.4))];
      keypressMapping := keypressMapping[KeyL := KeyAction(Some(info.startIdx + 1), Some(-0.2))];
      keypressMapping := keypressMapping[KeyJ := KeyAction(Some(info.startIdx + 1), Some(0.2))];
    }

    /** A one-dimensional gripper: bound to T, at rest, and added to the binary grippers. */
    method BindBinaryGripper(component: string, info: Info)
      modifies this
      ensures CurrentBindings() == old(CurrentBindings()).(
        mapping := old(keypressMapping)[KeyT := KeyAction(Some(info.startIdx), Some(1.0))],
        gripperDirection := old(gripperDirection)[component := 1.0],
        persistentGripperAction := old(persistentGripperAction)[component := 1.0],
        binaryGrippers := old(binaryGrippers) + [component])
      ensures Focus() == old(Focus())
    {
      keypressMapping := keypressMapping[KeyT := KeyAction(Some(info.startIdx), Some(1.0))];
      gripperDirection := gripperDirection[component := 1.0];
      persistentGripperAction := persistentGripperAction[component := 1.0];
      binaryGrippers := binaryGrippers + [component];
    }

    /** The start of `populate_keypress_mapping`: fresh tables, and the brackets bound. */
    method RestartBindings()
      modifies this
      ensures CurrentBindings() == PopulateStart(old(ikArms), old(binaryGrippers))
      ensures Focus() == old(Focus())
    {
      keypressMapping := map[];
      jointCommandIdx := [];
      jointControlIdx := [];
      gripperDirection := map[];
      persistentGripperAction := map[];
      keypressMapping := keypressMapping[RightBracket := KeyAction(None, Some(0.1))];
      keypressMapping := keypressMapping[LeftBracket := KeyAction(None, Some(-0.1))];
    }

    /**
     * `populate_keypress_mapping`: restarts the bindings and binds every controller in table
     * order; a controller of an unknown class raises, leaving the bindings made before it.
     */
    method PopulateKeypressMapping() returns (r: Result<(), string>)
      requires Valid()
      modifies this
      ensures Valid()
      ensures var p := BindAll(PopulateStart(old(ikArms), old(binaryGrippers)), controllerNames, controllerInfo);
        CurrentBindings() == p.bindings && (r.Failure? <==> p.error.Some?) && (r.Failure? ==> r.error == p.error.value)
      ensures Focus() == old(Focus())
    {
      ghost var start := PopulateStart(ikArms, binaryGrippers);
      RestartBindings();
      var i := 0;
      assert controllerNames[..0] == [];
      while i < |controllerNames|
        invariant i <= |controllerNames| && Valid()
        invariant BindAll(start, controllerNames[..i], controllerInfo) == Populated(CurrentBindings(), None)
        invariant Focus() == old(Focus())
      {
        var component := controllerNames[i];
        BindAllStep(start, controllerNames, controllerInfo, i);
        var bound := BindController(component, controllerInfo[component]);
        if bound.Failure? {
          BindAllStaysFailed(start, controllerNames, controllerInfo, i + 1);
          return bound;
        }
        i := i + 1;
      }
      assert controllerNames[..i] == controllerNames;
      r := Success(());
    }

    /** The attributes the event handler reads and writes. */
    function CurrentPad(): Pad
      reads this
    {
      Pad(activeJointCommandIdxIdx, activeArmIdx, activeGripperIdx, keypressMapping,
          currentKeypress, activeAction, togglingGripper)
    }

    /** `keyboard_event_handler(event)`; the answer is always true. */
    method KeyboardEventHandler(event: KeyEvent) returns (effect: Effect, result: bool)
      requires Valid()
      modifies this
      ensures result && Valid()
      ensures (CurrentPad(), effect)
        == HandleEvent(old(CurrentPad()), event, old(|jointControlIdx|), old(ikArms), old(|binaryGrippers|), controllerInfo)
      ensures CurrentBindings() == old(CurrentBindings()).(mapping := keypressMapping)
      ensures old(SelectionsInRange()) ==> SelectionsInRange()
    {
      ghost var pad := CurrentPad();
      effect := NoEffect;
      if event.kind == KeyPress || event.kind == KeyRepeat {
        effect := PressKey(event.input);
        HandleEventOnPress(pad, event, |jointControlIdx|, ikArms, |binaryGrippers|, controllerInfo, CurrentPad(), effect);
        if event.kind == KeyPress {
          currentKeypress := Some(event.input);
          if event.input == KeyT {
            togglingGripper := true;
          }
        }
      } else if event.kind == KeyRelease {
        activeAction := None;
        currentKeypress := None;
      }
      result := true;
    }

    /** Keys 3 and 4 with several IK arms: the previous or next arm takes over the IK keys. */
    method ChangeArm(key: Key)
      requires ArmsKnown() && ArmInRange()
      requires BranchOf(key, |jointControlIdx|, |ikArms|, |binaryGrippers|) == SelectArm
      modifies this
      ensures CurrentBindings() == old(CurrentBindings()).(mapping := keypressMapping)
      ensures (CurrentPad(), NoEffect)
        == Press(old(CurrentPad()), key, old(|jointControlIdx|), old(ikArms), old(|binaryGrippers|), controllerInfo)
      ensures ArmInRange()
      ensures old(SelectionsInRange()) ==> SelectionsInRange()
    {
      activeArmIdx := Shift(activeArmIdx, key == Key3, |ikArms|);
      var newArm := ikArms[activeArmIdx];
      keypressMapping := keypressMapping + IkMapping(controllerInfo[newArm].startIdx);
    }

    /** Keys 1, 2, 5 and 6 with several choices: the previous or next joint or gripper. */
    method ChangeSelection(key: Key)
      requires BranchOf(key, |jointControlIdx|, |ikArms|, |binaryGrippers|) in {SelectJoint, SelectGripper}
      requires ArmsKnown() && ArmInRange()
      modifies this
      ensures CurrentBindings() == old(CurrentBindings())
      ensures (CurrentPad(), NoEffect)
        == Press(old(CurrentPad()), key, old(|jointControlIdx|), old(ikArms), old(|binaryGrippers|), controllerInfo)
      ensures ArmInRange()
      ensures old(SelectionsInRange()) ==> SelectionsInRange()
    {
      PressSelectsJointOrGripper(CurrentPad(), key, |jointControlIdx|, ikArms, |binaryGrippers|, controllerInfo);
      if BranchOf(key, |jointControlIdx|, |ikArms|, |binaryGrippers|) == SelectJoint {
        activeJointCommandIdxIdx := Shift(activeJointCommandIdxIdx, key == Key1, |jointControlIdx|);
      } else {
        activeGripperIdx := Shift(activeGripperIdx, key == Key5, |binaryGrippers|);
      }
    }

    /** R, Escape, and any other key, whose binding (or None) becomes the active action. */
    method PlainKey(key: Key) returns (effect: Effect)
      requires BranchOf(key, |jointControlIdx|, |ikArms|, |binaryGrippers|) in {Visualize, Quit, Act}
      requires ArmsKnown() && ArmInRange()
      modifies this
      ensures CurrentBindings() == old(CurrentBindings())
      ensures (CurrentPad(), effect)
        == Press(old(CurrentPad()), key, old(|jointControlIdx|), old(ikArms), old(|binaryGrippers|), controllerInfo)
      ensures ArmInRange()
      ensures old(SelectionsInRange()) ==> SelectionsInRange()
    {
      PressPlain(CurrentPad(), key, |jointControlIdx|, ikArms, |binaryGrippers|, controllerInfo);
      effect := NoEffect;
      if key == KeyR {
        effect := VisualizeSensors;
      } else if key == Escape {
        effect := Shutdown;
      } else {
        activeAction := if key in keypressMapping then Some(keypressMapping[key]) else None;
      }
    }

    /** The special cases of a pressed or repeated key, then the bound action of any other key. */
    method PressKey(key: Key) returns (effect: Effect)
      requires ArmsKnown() && ArmInRange()
      modifies this
      ensures CurrentBindings() == old(CurrentBindings()).(mapping := keypressMapping)
      ensures (CurrentPad(), effect)
        == Press(old(CurrentPad()), key, old(|jointControlIdx|), old(ikArms), old(|binaryGrippers|), controllerInfo)
      ensures ArmInRange()
      ensures old(SelectionsInRange()) ==> SelectionsInRange()
    {
      var branch := BranchOf(key, |jointControlIdx|, |ikArms|, |binaryGrippers|);
      if branch == SelectArm {
        ChangeArm(key);
        effect := NoEffect;
      } else if branch == SelectJoint || branch == SelectGripper {
        ChangeSelection(key);
        effect := NoEffect;
      } else {
        effect := PlainKey(key);
      }
    }

    /**
     * One gripper `g` at position `i` of the loop of `get_teleop_action`, writing into
     * `action`; `error` is the exception it raised, if one.
     */
    method GripperStep(action: array<real>, g: string, i: nat, tval: real) returns (error: Option<string>)
      modifies this`gripperDirection, this`persistentGripperAction, this`togglingGripper, action
      ensures Pass(CurrentGrip(), action[..], error)
        == GripperWrite(Pass(old(CurrentGrip()), old(action[..]), None), g, i, activeGripperIdx, tval, controllerInfo)
      ensures CurrentBindings() == old(CurrentBindings()).(gripperDirection := gripperDirection, persistentGripperAction := persistentGripperAction)
      ensures CurrentPad() == old(CurrentPad()).(toggling := togglingGripper)
    {
      var grip := CurrentGrip();
      if grip.toggling && i == activeGripperIdx {
        if g !in grip.direction {
          return Some(KeyError);
        }
        var d := grip.direction[g] * -1.0;
        grip := Grip(grip.direction[g := d], grip.persistent[g := GripperCommand(tval, d)], false);
        gripperDirection, persistentGripperAction, togglingGripper := grip.direction, grip.persistent, false;
      }
      if g !in grip.persistent || g !in controllerInfo {
        return Some(KeyError);
      }
      var slot := controllerInfo[g].startIdx;
      if action.Length <= slot {
        return Some(IndexError);
      }
      ghost var before := action[..];
      action[slot] := grip.persistent[g];
      assert action[..] == before[slot := grip.persistent[g]];
      error := None;
    }

    /**
     * The loop of `get_teleop_action` over the binary grippers, writing into `action`; `error`
     * is the exception that stopped it, if one did.
     */
    method GripperLoop(action: array<real>, tval: real) returns (error: Option<string>)
      modifies this, action
      ensures var p := GripperPass(old(CurrentGrip()), old(action[..]), binaryGrippers, activeGripperIdx, tval, controllerInfo);
        CurrentGrip() == p.grip && error == p.error && (error.None? ==> action[..] == p.action)
      ensures CurrentBindings() == old(CurrentBindings()).(gripperDirection := gripperDirection, persistentGripperAction := persistentGripperAction)
      ensures CurrentPad() == old(CurrentPad()).(toggling := togglingGripper)
    {
      ghost var grip0 := CurrentGrip();
      ghost var action0 := action[..];
      var i := 0;
      assert binaryGrippers[..0] == [];
      while i < |binaryGrippers|
        invariant i <= |binaryGrippers|
        invariant GripperPass(grip0, action0, binaryGrippers[..i], activeGripperIdx, tval, controllerInfo)
          == Pass(CurrentGrip(), action[..], None)
        invariant CurrentBindings() == old(CurrentBindings()).(gripperDirection := gripperDirection, persistentGripperAction := persistentGripperAction)
        invariant CurrentPad() == old(CurrentPad()).(toggling := togglingGripper)
      {
        GripperPassStep(grip0, action0, binaryGrippers, activeGripperIdx, tval, controllerInfo, i);
        var e := GripperStep(action, binaryGrippers[i], i, tval);
        if e.Some? {
          GripperPassStaysFailed(grip0, action0, binaryGrippers, activeGripperIdx, tval, controllerInfo, i + 1);
          return e;
        }
        i := i + 1;
      }
      assert binaryGrippers[..i] == binaryGrippers;
      error := None;
    }

    /**
     * `get_teleop_action`: a fresh vector of zeros of the action size, the active action's
     * value written at its index, then each binary gripper's persistent action written at its
     * command's start after toggling the selected one if a toggle is pending. An index out of
     * range or a missing key raises, keeping the gripper updates made before it.
     */
    method GetTeleopAction() returns (r: Result<array<real>, string>)
      modifies this
      ensures var p := Teleop(actionDim, activeAction, jointCommandIdx, activeJointCommandIdxIdx,
                              keypressMapping, binaryGrippers, activeGripperIdx, controllerInfo, old(CurrentGrip()));
        CurrentGrip() == p.grip && (r.Failure? <==> p.error.Some?) && (r.Failure? ==> r.error == p.error.value)
        && (r.Success? ==> fresh(r.value) && r.value[..] == p.action)
      ensures CurrentBindings() == old(CurrentBindings()).(gripperDirection := gripperDirection, persistentGripperAction := persistentGripperAction)
      ensures CurrentPad() == old(CurrentPad()).(toggling := togglingGripper)
    {
      var action := new real[actionDim](_ => 0.0);
      ghost var w := ActiveWrite(activeAction, jointCommandIdx, activeJointCommandIdxIdx, actionDim);
      if activeAction.Some? && activeAction.value.val.Some? {
        var idx: nat;
        if activeAction.value.idx.Some? {
          idx := activeAction.value.idx.value;
        } else {
          if |jointCommandIdx| <= activeJointCommandIdxIdx {
            return Failure(IndexError);
          }
          idx := jointCommandIdx[activeJointCommandIdxIdx];
        }
        if action.Length <= idx {
          return Failure(IndexError);
        }
        action[idx] := activeAction.value.val.value;
      }
      assert action[..] == w.value;
      if |binaryGrippers| > 0 {
        if KeyT !in keypressMapping {
          return Failure(KeyError);
        }
        if keypressMapping[KeyT].val.Some? {
          var error := GripperLoop(action, keypressMapping[KeyT].val.value);
          if error.Some? {
            return Failure(error.value);
          }
        }
      }
      r := Success(action);
    }

    /** `__init__` in full: the constructor's table, then the keypress bindings populated. */
    static method Create(controllers: seq<Controller>, actionDim: nat, jointNames: seq<string>)
      returns (r: Result<KeyboardRobotController, string>)
      ensures var p := BindAll(PopulateStart([], []), Components(controllers), InfoTable(controllers));
        (r.Failure? <==> p.error.Some?) && (r.Failure? ==> r.error == p.error.value)
      ensures r.Success? ==> fresh(r.value) && r.value.Valid() && r.value.SelectionsInRange()
      ensures r.Success? ==>
        var p := BindAll(PopulateStart([], []), Components(controllers), InfoTable(controllers));
        r.value.controllerInfo == InfoTable(controllers) && r.value.CurrentBindings() == p.bindings
      ensures r.Success? ==> r.value.actionDim == actionDim && r.value.activeAction == None && !r.value.togglingGripper
    {
      var c := new KeyboardRobotController(controllers, actionDim, jointNames);
      var populated := c.PopulateKeypressMapping();
      if populated.Failure? {
        return Failure(populated.error);
      }
      r := Success(c);
    }
  }
}

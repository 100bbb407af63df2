/**
 * The bookkeeping parts of omnigibson/prims/xform_prim.py: the flat form of a prim's pose state,
 * the quaternion component orders exchanged with the scene description (scalar-last `x, y, z, w`
 * in the API, scalar-first `w, x, y, z` in the `xformOp:orient` attribute), and the attribute
 * writes of `set_local_pose`, the `scale` setter and `set_default_state`.
 *
 * The prim's attributes are fields of the class; anything that goes through the world transform
 * of the prim's parent is not part of this model.
 */
module XFormPrims {
  import opened Wrappers
  import opened Slices

  /** `OrderedDict(pos=..., ori=...)`, the pose state `_dump_state` returns. */
  datatype PoseState = PoseState(pos: seq<real>, ori: seq<real>)

  /** `_serialize`: the values in key order, `pos` then `ori`, concatenated. */
  function Serialize(s: PoseState): (flat: seq<real>)
    ensures |flat| == |s.pos| + |s.ori|
    ensures flat[..|s.pos|] == s.pos && flat[|s.pos|..] == s.ori
  {
    s.pos + s.ori
  }

  /** `_deserialize`: `pos` is `flat[0:3]`, `ori` is `flat[3:7]`, and 7 entries are consumed. */
  function Deserialize(flat: seq<real>): (r: (PoseState, nat))
    ensures r.1 == 7
    ensures |r.0.pos| <= 3 && |r.0.ori| <= 4
    ensures 7 <= |flat| ==> r.0.pos + r.0.ori == flat[..7]
  {
    (PoseState(Slice(flat, 0, 3), Slice(flat, 3, 7)), 7)
  }

  /** A well-shaped pose survives serialization, whatever follows it in the flat state. */
  lemma DeserializeSerialize(s: PoseState, rest: seq<real>)
    requires |s.pos| == 3 && |s.ori| == 4
    ensures Deserialize(Serialize(s) + rest) == (s, 7)
  {
    var flat := Serialize(s) + rest;
    assert flat[0..3] == s.pos;
    assert flat[3..7] == s.ori;
  }

  /** Seven flat entries come back unchanged from a deserialize/serialize round trip. */
  lemma SerializeDeserialize(flat: seq<real>)
    requires |flat| == 7
    ensures Serialize(Deserialize(flat).0) == flat
  {
    assert flat[..7] == flat;
  }

  /** numpy fancy indexing `q[idx]`. */
  function Pick(q: seq<real>, idx: seq<nat>): (r: seq<real>)
    requires forall i :: 0 <= i < |idx| ==> idx[i] < |q|
    ensures |r| == |idx| && forall i :: 0 <= i < |idx| ==> r[i] == q[idx[i]]
  {
    seq(|idx|, i requires 0 <= i < |idx| => q[idx[i]])
  }

  /** `[3, 0, 1, 2]`: from scalar-last `x, y, z, w` to scalar-first `w, x, y, z`. */
  const ToScalarFirst: seq<nat> := [3, 0, 1, 2]
  /** `[1, 2, 3, 0]`: from scalar-first `w, x, y, z` to scalar-last `x, y, z, w`. */
  const ToScalarLast: seq<nat> := [1, 2, 3, 0]

  /** The first reorder moves the scalar to the front, the second moves it to the back. */
  lemma ReordersMoveScalar(q: seq<real>)
    requires |q| == 4
    ensures Pick(q, ToScalarFirst) == [q[3]] + q[..3]
    ensures Pick(q, ToScalarLast) == q[1..] + [q[0]]
  {
  }

  /** Turning a quaternion scalar-first and back gives it unchanged. */
  lemma ScalarFirstThenLast(q: seq<real>)
    requires |q| == 4
    ensures Pick(Pick(q, ToScalarFirst), ToScalarLast) == q
  {
    ReordersMoveScalar(q);
    var f := Pick(q, ToScalarFirst);
    ReordersMoveScalar(f);
    assert f[1..] == q[..3];
    assert q == q[..3] + [q[3]];
  }

  /** Turning a quaternion scalar-last and back gives it unchanged. */
  lemma ScalarLastThenFirst(q: seq<real>)
    requires |q| == 4
    ensures Pick(Pick(q, ToScalarLast), ToScalarFirst) == q
  {
    ReordersMoveScalar(q);
    var l := Pick(q, ToScalarLast);
    ReordersMoveScalar(l);
    assert l[..3] == q[1..];
    assert q == [q[0]] + q[1..];
  }

  /** Both reorders are permutations: they keep every component and add none. */
  lemma ReordersPermute(q: seq<real>)
    requires |q| == 4
    ensures multiset(Pick(q, ToScalarFirst)) == multiset(q)
    ensures multiset(Pick(q, ToScalarLast)) == multiset(q)
  {
    ReordersMoveScalar(q);
    assert q == q[..3] + [q[3]];
    assert q == [q[0]] + q[1..];
  }

  /** The argument of the `scale` setter: one number, or an iterable used as given. */
  datatype ScaleArg = Uniform(x: real) | PerAxis(v: seq<real>)

  /** `np.array(scale) if isinstance(scale, Iterable) else np.ones(3) * scale` */
  function ScaleVector(arg: ScaleArg): (v: seq<real>)
    ensures arg.Uniform? ==> |v| == 3 && forall i :: 0 <= i < 3 ==> v[i] == arg.x
    ensures arg.PerAxis? ==> v == arg.v
  {
    match arg
    case Uniform(x) => [x, x, x]
    case PerAxis(v) => v
  }

  class XFormPrim {
    /** The prim's name, used in logged errors. */
    const name: string
    /** The prim's property names as the scene description reports them. */
    var properties: set<string>
    /** The `xformOp:translate` attribute. */
    var translate: seq<real>
    /** The `xformOp:orient` attribute, scalar-first. */
    var orient: seq<real>
    /** The `xformOp:scale` attribute. */
    var scale: seq<real>
    /** `_default_state`: None until the prim is initialised. */
    var defaultState: Option<PoseState>
    /** The path of the material bound directly to the prim, "" when none is. */
    var materialPath: string
    /** The errors logged so far. */
    var errors: seq<string>

    /** The pose attributes have the shapes of `Gf.Vec3d` and of a quaternion. */
    predicate Valid()
      reads this
    {
      |translate| == 3 && |orient| == 4 && |scale| == 3
    }

    constructor (name: string, properties: set<string>, materialPath: string)
      ensures Valid()
      ensures this.name == name && this.properties == properties && this.materialPath == materialPath
      ensures defaultState == None && errors == []
      ensures translate == [0.0, 0.0, 0.0] && orient == [1.0, 0.0, 0.0, 0.0] && scale == [1.0, 1.0, 1.0]
    {
      this.name := name;
      this.properties := properties;
      this.materialPath := materialPath;
      translate := [0.0, 0.0, 0.0];
      orient := [1.0, 0.0, 0.0, 0.0];
      scale := [1.0, 1.0, 1.0];
      defaultState := None;
      errors := [];
    }

    /** `has_material`: a material is bound exactly when its path is not empty. */
    function HasMaterial(): (b: bool)
      reads this
      ensures !b <==> materialPath == ""
    {
      if materialPath == "" then false else true
    }

    /** `get_local_pose`: the translation, and the orientation turned scalar-last. */
    method GetLocalPose() returns (translation: seq<real>, orientation: seq<real>)
      requires Valid()
      ensures translation == translate
      ensures orientation == Pick(orient, ToScalarLast)
    {
      translation := translate;
      orientation := Pick(orient, ToScalarLast);
    }

    /**
     * `set_local_pose`: a given translation is written as is, a given scalar-last orientation is
     * written scalar-first; a missing property is logged but the write still happens.
     */
    method SetLocalPose(translation: Option<seq<real>>, orientation: Option<seq<real>>)
      requires Valid()
      requires translation.Some? ==> |translation.value| == 3
      requires orientation.Some? ==> |orientation.value| == 4
      modifies this
      ensures Valid()
      ensures translate == if translation.Some? then translation.value else old(translate)
      ensures orient == if orientation.Some? then Pick(orientation.value, ToScalarFirst) else old(orient)
      ensures errors == old(errors)
        + (if translation.Some? && "xformOp:translate" !in properties
           then ["Translate property needs to be set for " + name + " before setting its position"] else [])
        + (if orientation.Some? && "xformOp:orient" !in properties
           then ["Orient property needs to be set for " + name + " before setting its orientation"] else [])
      ensures scale == old(scale) && defaultState == old(defaultState) && properties == old(properties)
      ensures materialPath == old(materialPath)
    {
      if translation.Some? {
        if "xformOp:translate" !in properties {
          errors := errors + ["Translate property needs to be set for " + name + " before setting its position"];
        }
        translate := translation.value;
      }
      if orientation.Some? {
        if "xformOp:orient" !in properties {
          errors := errors + ["Orient property needs to be set for " + name + " before setting its orientation"];
        }
        orient := Pick(orientation.value, ToScalarFirst);
      }
    }

    /** Reading the local pose back gives what was set, the orientation again scalar-last. */
    method SetThenGetLocalPose(translation: seq<real>, orientation: seq<real>)
      returns (t: seq<real>, q: seq<real>)
      requires Valid() && |translation| == 3 && |orientation| == 4
      modifies this
      ensures t == translation && q == orientation
    {
      SetLocalPose(Some(translation), Some(orientation));
      ScalarFirstThenLast(orientation);
      t, q := GetLocalPose();
    }

    /** The `scale` setter: a number is applied to every axis; a missing property is logged. */
    method SetScale(arg: ScaleArg)
      requires Valid()
      requires arg.PerAxis? ==> |arg.v| == 3
      modifies this
      ensures Valid()
      ensures scale == ScaleVector(arg) && |scale| == 3
      ensures errors == old(errors)
        + (if "xformOp:scale" !in properties
           then ["Scale property needs to be set for " + name + " before setting its scale"] else [])
      ensures translate == old(translate) && orient == old(orient) && defaultState == old(defaultState)
      ensures properties == old(properties) && materialPath == old(materialPath)
    {
      var v := ScaleVector(arg);
      if "xformOp:scale" !in properties {
        errors := errors + ["Scale property needs to be set for " + name + " before setting its scale"];
      }
      scale := v;
    }

    /**
     * `set_default_state`: each component given replaces the stored one, a missing one is left
     * as it was. Giving a component before the prim is initialised fails, as the attribute
     * write on `None` does.
     */
    method SetDefaultState(position: Option<seq<real>>, orientation: Option<seq<real>>) returns (r: Result<(), string>)
      modifies this
      ensures old(defaultState).None? && (position.Some? || orientation.Some?) <==> r.Failure?
      ensures r.Failure? ==> defaultState == old(defaultState)
      ensures r.Failure? ==> r.error == "'NoneType' object has no attribute '" + (if position.Some? then "position" else "orientation") + "'"
      ensures r.Success? && old(defaultState).Some? ==>
        defaultState == Some(PoseState(
          if position.Some? then position.value else old(defaultState).value.pos,
          if orientation.Some? then orientation.value else old(defaultState).value.ori))
      ensures old(defaultState).None? ==> defaultState == None
      ensures translate == old(translate) && orient == old(orient) && scale == old(scale) && errors == old(errors)
      ensures properties == old(properties) && materialPath == old(materialPath)
    {
      if defaultState.None? {
        if position.Some? {
          return Failure("'NoneType' object has no attribute 'position'");
        } else if orientation.Some? {
          return Failure("'NoneType' object has no attribute 'orientation'");
        }
        return Success(());
      }
      if position.Some? {
        defaultState := Some(defaultState.value.(pos := position.value));
      }
      if orientation.Some? {
        defaultState := Some(defaultState.value.(ori := orientation.value));
      }
      r := Success(());
    }
  }
}

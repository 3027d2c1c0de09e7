/** Conversion between native observations/actions and the flat `(num_envs, -1)` tensor
    contract: `_observation_to_tensor` and `_tensor_to_action` of the Gym wrapper
    (torch) and of the PettingZoo wrapper (numpy). The two differ in the dtype given to a
    bare Python int, in how concatenation promotes dtypes, and in the Box branch: torch
    builds a tensor from the observation, numpy calls the observation's own `reshape`. */
module Codec {
  import opened Common
  import opened Tensors
  import opened Keys
  import opened Spaces
  import opened Values

  /** torch builds a bare int as int64, numpy as int32. */
  function IntDType(lib: ArrayLib): DType
  {
    if lib == Torch then Int64 else Int32
  }

  /** The elements a non-mapping observation holds, in row-major order. */
  function LeafElements(obs: Obs): seq<Num>
    requires !obs.Mapping?
  {
    match obs
    case PyInt(i) => [Fin(i as real)]
    case PyFloat(f) => [f]
    case NpScalar(x) => [x]
    case NdArray(a) => a.data
  }

  /** `torch.tensor(obs, dtype=d)` / `np.array(obs, dtype=d)`: a mapping is not numeric. */
  function ToArray(obs: Obs, dtype: DType): (r: Result<Tensor>)
    ensures r.Ok? <==> !obs.Mapping?
    ensures r.Ok? ==> r.value.data == LeafElements(obs) && r.value.dtype == dtype
  {
    match obs
    case PyInt(i) => Ok(Tensor([], [Fin(i as real)], dtype))
    case PyFloat(f) => Ok(Tensor([], [f], dtype))
    case NpScalar(x) => Ok(Tensor([], [x], dtype))
    case NdArray(a) => Ok(Tensor(a.shape, a.data, dtype))
    case Mapping(_) => Err(NotNumeric)
  }

  /** `observation[k]`. */
  function Subscript(obs: Obs, k: string): (r: Result<Obs>)
    ensures r.Ok? <==> obs.Mapping? && k in obs.entries
    ensures r.Ok? ==> r.value == obs.entries[k]
  {
    match obs
    case Mapping(m) => if k in m then Ok(m[k]) else Err(MissingKey(k))
    case _ => Err(NotSubscriptable)
  }

  /** `torch.tensor(obs, dtype=d).view(num_envs, -1)` / `np.array(obs, dtype=d).reshape(num_envs, -1)`. */
  function ViewAs(obs: Obs, dtype: DType, numEnvs: nat): (r: Result<Tensor>)
    ensures r.Ok? <==> !obs.Mapping? && numEnvs > 0 && |LeafElements(obs)| % numEnvs == 0
    ensures r.Ok? ==> HasRows(r.value, numEnvs) && r.value.data == LeafElements(obs) && r.value.dtype == dtype
  {
    match ToArray(obs, dtype)
    case Ok(t) => View(t, numEnvs)
    case Err(e) => Err(e)
  }

  /** `torch.tensor(obs, dtype=float32).view(num_envs, -1)`. */
  function FloatView(obs: Obs, numEnvs: nat): Result<Tensor>
  {
    ViewAs(obs, Float32, numEnvs)
  }

  /** `observation.reshape(num_envs, -1).astype(float32)`: a method call on the observation,
      which a Python float or dict does not have. */
  function ReshapeMethod(obs: Obs, numEnvs: nat): (r: Result<Tensor>)
    ensures obs.PyFloat? || obs.Mapping? ==> r == Err(NoReshape)
    ensures !obs.PyFloat? && !obs.Mapping? ==> r == FloatView(obs, numEnvs)
  {
    if obs.PyFloat? || obs.Mapping? then Err(NoReshape) else FloatView(obs, numEnvs)
  }

  /** The dtype a leaf observation is encoded with. */
  function LeafDType(lib: ArrayLib, obs: Obs): DType
  {
    if obs.PyInt? then IntDType(lib) else Float32
  }

  /** True when the encoder treats `obs` as a leaf: a bare int or array whatever the space,
      or any non-mapping value under a Discrete or Box space, except a Python float under a
      Box space in numpy. */
  predicate IsLeafCase(lib: ArrayLib, obs: Obs, space: Space)
  {
    || obs.PyInt? || obs.NdArray?
    || (!obs.Mapping? && (space.Discrete? || (space.Box? && !(lib == NumPy && obs.PyFloat?))))
  }

  /** `_observation_to_tensor(observation, space)`. The checks run in the source's order:
      a bare int or array is flattened whatever the space; otherwise the space decides. */
  function Encode(lib: ArrayLib, numEnvs: nat, obs: Obs, space: Space): (r: Result<Tensor>)
    ensures r.Ok? ==> HasRows(r.value, numEnvs)
    ensures IsLeafCase(lib, obs, space) ==>
      && (r.Ok? <==> numEnvs > 0 && |LeafElements(obs)| % numEnvs == 0)
      && (r.Ok? ==> r.value.data == LeafElements(obs) && r.value.dtype == LeafDType(lib, obs))
    ensures obs.Mapping? && (space.Discrete? || space.Box?) ==> r.Err?
    ensures lib == NumPy && obs.PyFloat? && space.Box? ==> r == Err(NoReshape)
    ensures !obs.PyInt? && !obs.NdArray? && space.Unsupported? ==> r == Err(UnsupportedSpace(space.kind))
    decreases space, 1, 0
  {
    if obs.PyInt? then View(ToArray(obs, IntDType(lib)).value, numEnvs)
    else if obs.NdArray? then View(ToArray(obs, Float32).value, numEnvs)
    else
      match space
      case Discrete(_) => FloatView(obs, numEnvs)
      case Box(_, _, _, _) => if lib == NumPy then ReshapeMethod(obs, numEnvs) else FloatView(obs, numEnvs)
      case Dict(fields) => EncodeDict(lib, numEnvs, obs, fields)
      case Unsupported(kind) => Err(UnsupportedSpace(kind))
  }

  /** The Dict branch: `torch.cat([...], dim=-1).view(num_envs, -1)` over the encodings of
      the fields in sorted key order. */
  function EncodeDict(lib: ArrayLib, numEnvs: nat, obs: Obs, fields: seq<Field>): (r: Result<Tensor>)
    ensures r.Ok? ==> HasRows(r.value, numEnvs)
    decreases fields, 2, 0
  {
    var keys := SortKeys(FieldKeys(fields));
    SortKeysAreKeys(FieldKeys(fields));
    ConcatParts(lib, numEnvs, EncodeFields(lib, numEnvs, obs, fields, keys))
  }

  /** `cat(parts, dim=-1).view(num_envs, -1)` once the parts are encoded (or the error that
      encoding them raised). The view of the concatenation is the concatenation itself, so it
      fails only on an empty list or when there are no rows at all. */
  function ConcatParts(lib: ArrayLib, numEnvs: nat, parts: Result<seq<Tensor>>): (r: Result<Tensor>)
    requires parts.Ok? ==> forall j | 0 <= j < |parts.value| :: HasRows(parts.value[j], numEnvs)
    ensures parts.Err? ==> r == Err(parts.error)
    ensures r.Ok? <==> parts.Ok? && parts.value != [] && numEnvs > 0
    ensures parts.Ok? && parts.value == [] ==> r == Err(EmptyConcat)
    ensures r.Ok? ==> r.value == CatAll(lib, parts.value, numEnvs)
    ensures r.Ok? ==> HasRows(r.value, numEnvs)
  {
    var ps :- parts;
    if ps == [] then Err(EmptyConcat)
    else
      var t := CatAll(lib, ps, numEnvs);
      if numEnvs > 0 then
        ViewOfRows(t, numEnvs);
        View(t, numEnvs)
      else
        View(t, numEnvs)
  }

  /** The encodings of `observation[k]` under `space[k]` for each `k` of `keys`, in order. */
  function EncodeFields(lib: ArrayLib, numEnvs: nat, obs: Obs, fields: seq<Field>, keys: seq<string>)
    : (r: Result<seq<Tensor>>)
    requires forall j | 0 <= j < |keys| :: keys[j] in FieldKeys(fields)
    ensures r.Ok? ==> |r.value| == |keys| && forall j | 0 <= j < |keys| :: HasRows(r.value[j], numEnvs)
    decreases fields, 0, |keys|
  {
    if keys == [] then Ok([])
    else
      var head :- FieldPart(lib, numEnvs, obs, fields, keys[0]);
      var tail :- EncodeFields(lib, numEnvs, obs, fields, keys[1..]);
      Ok([head] + tail)
  }

  /** `self._observation_to_tensor(observation[k], space[k])`. */
  function FieldPart(lib: ArrayLib, numEnvs: nat, obs: Obs, fields: seq<Field>, k: string): (r: Result<Tensor>)
    requires k in FieldKeys(fields)
    ensures r.Ok? ==> HasRows(r.value, numEnvs)
    decreases fields, 0, 0
  {
    var sub :- Subscript(obs, k);
    Encode(lib, numEnvs, sub, FieldSpace(fields, k))
  }

  /** What `EncodeFields` builds: part `j` is the encoding of field `keys[j]`. */
  lemma {:induction false} EncodeFieldsParts(lib: ArrayLib, numEnvs: nat, obs: Obs, fields: seq<Field>, keys: seq<string>)
    requires forall j | 0 <= j < |keys| :: keys[j] in FieldKeys(fields)
    requires EncodeFields(lib, numEnvs, obs, fields, keys).Ok?
    ensures var parts := EncodeFields(lib, numEnvs, obs, fields, keys).value;
      forall j | 0 <= j < |keys| ::
        && Subscript(obs, keys[j]).Ok?
        && Encode(lib, numEnvs, Subscript(obs, keys[j]).value, FieldSpace(fields, keys[j])) == Ok(parts[j])
  {
    forall j | 0 <= j < |keys| {
      EncodeFieldsAt(lib, numEnvs, obs, fields, keys, j);
    }
  }

  lemma {:induction false} EncodeFieldsAt(lib: ArrayLib, numEnvs: nat, obs: Obs, fields: seq<Field>, keys: seq<string>, j: nat)
    requires forall j | 0 <= j < |keys| :: keys[j] in FieldKeys(fields)
    requires EncodeFields(lib, numEnvs, obs, fields, keys).Ok? && j < |keys|
    ensures FieldPart(lib, numEnvs, obs, fields, keys[j]) == Ok(EncodeFields(lib, numEnvs, obs, fields, keys).value[j])
  {
    if j > 0 {
      EncodeFieldsAt(lib, numEnvs, obs, fields, keys[1..], j - 1);
    }
  }

  /** Encoding the fields of `keys` succeeds exactly when each one does. */
  lemma {:induction false} EncodeFieldsOk(lib: ArrayLib, numEnvs: nat, obs: Obs, fields: seq<Field>, keys: seq<string>)
    requires forall j | 0 <= j < |keys| :: keys[j] in FieldKeys(fields)
    ensures EncodeFields(lib, numEnvs, obs, fields, keys).Ok?
        <==> forall j | 0 <= j < |keys| :: FieldPart(lib, numEnvs, obs, fields, keys[j]).Ok?
  {
    if keys != [] {
      EncodeFieldsOk(lib, numEnvs, obs, fields, keys[1..]);
      assert forall j | 1 <= j < |keys| :: keys[j] == keys[1..][j - 1];
    }
  }

  /** The Dict branch succeeds exactly when the space has at least one field, there is at
      least one environment, and every field is present in the observation and encodes. */
  lemma EncodeDictOk(lib: ArrayLib, numEnvs: nat, obs: Obs, fields: seq<Field>)
    requires !obs.PyInt? && !obs.NdArray?
    ensures Encode(lib, numEnvs, obs, Dict(fields)).Ok?
        <==> && fields != [] && numEnvs > 0
             && forall k | k in FieldKeys(fields) :: FieldPart(lib, numEnvs, obs, fields, k).Ok?
  {
    var keys := SortKeys(FieldKeys(fields));
    SortKeysAreKeys(FieldKeys(fields));
    EncodeFieldsOk(lib, numEnvs, obs, fields, keys);
    assert |keys| == |fields| by {
      assert |multiset(keys)| == |multiset(FieldKeys(fields))|;
    }
    forall k | k in FieldKeys(fields)
      ensures exists j | 0 <= j < |keys| :: keys[j] == k
    {
      assert k in multiset(keys);
      assert k in keys;
    }
  }

  /** A Dict observation is encoded by concatenating, row by row, the encodings of its fields
      taken in sorted key order; with a single environment the elements simply follow one
      another in that order. */
  lemma EncodeDictRows(lib: ArrayLib, numEnvs: nat, obs: Obs, fields: seq<Field>)
    requires !obs.PyInt? && !obs.NdArray?
    requires Encode(lib, numEnvs, obs, Dict(fields)).Ok?
    ensures var keys := SortKeys(FieldKeys(fields));
      var r := Encode(lib, numEnvs, obs, Dict(fields)).value;
      && Sorted(keys) && multiset(keys) == multiset(FieldKeys(fields))
      && (forall j | 0 <= j < |keys| :: keys[j] in FieldKeys(fields))
      && EncodeFields(lib, numEnvs, obs, fields, keys).Ok?
      && var parts := EncodeFields(lib, numEnvs, obs, fields, keys).value;
      && |parts| == |keys| > 0
      && (forall j | 0 <= j < |keys| ::
            && Subscript(obs, keys[j]).Ok?
            && Encode(lib, numEnvs, Subscript(obs, keys[j]).value, FieldSpace(fields, keys[j])) == Ok(parts[j]))
      && (forall i | 0 <= i < numEnvs :: Rows(r)[i] == RowAcross(parts, numEnvs, i))
      && (numEnvs == 1 ==> r.data == AllData(parts))
  {
    var keys := SortKeys(FieldKeys(fields));
    SortKeysSorted(FieldKeys(fields));
    SortKeysAreKeys(FieldKeys(fields));
    var parts := EncodeFields(lib, numEnvs, obs, fields, keys).value;
    EncodeFieldsParts(lib, numEnvs, obs, fields, keys);
    assert numEnvs > 0;
    ViewOfRows(CatAll(lib, parts, numEnvs), numEnvs);
    if numEnvs == 1 {
      CatAllSingleRow(lib, parts);
    }
  }

  lemma {:induction false} EncodeFieldsSameMapping(lib: ArrayLib, numEnvs: nat, obs: Obs, f1: seq<Field>, f2: seq<Field>, keys: seq<string>)
    requires SameMapping(f1, f2)
    requires forall j | 0 <= j < |keys| :: keys[j] in FieldKeys(f1)
    ensures forall j | 0 <= j < |keys| :: keys[j] in FieldKeys(f2)
    ensures EncodeFields(lib, numEnvs, obs, f1, keys) == EncodeFields(lib, numEnvs, obs, f2, keys)
  {
    if keys != [] {
      assert FieldSpace(f1, keys[0]) == FieldSpace(f2, keys[0]);
      EncodeFieldsSameMapping(lib, numEnvs, obs, f1, f2, keys[1..]);
    }
  }

  /** The encoding of a Dict observation does not depend on the insertion order of the
      space's fields. */
  lemma EncodeDictIgnoresFieldOrder(lib: ArrayLib, numEnvs: nat, obs: Obs, f1: seq<Field>, f2: seq<Field>)
    requires SameMapping(f1, f2)
    ensures Encode(lib, numEnvs, obs, Dict(f1)) == Encode(lib, numEnvs, obs, Dict(f2))
  {
    SortedKeysOfSameMapping(f1, f2);
    SortKeysAreKeys(FieldKeys(f1));
    EncodeFieldsSameMapping(lib, numEnvs, obs, f1, f2, SortKeys(FieldKeys(f1)));
  }

  lemma SortTwoKeys(ka: string, kb: string)
    requires StrLess(ka, kb)
    ensures SortKeys([kb, ka]) == [ka, kb]
  {
    if StrLeq(kb, ka) {
      StrLeqAntisymmetric(ka, kb);
      StrLessIrreflexive(ka);
    }
    assert [kb, ka][1..] == [ka];
    assert [ka][1..] == [];
    assert SortKeys([ka]) == [ka];
    assert Insert(kb, [ka]) == [ka] + Insert(kb, []);
  }

  /** The two fields of the lemma below, encoded in sorted key order. */
  lemma TwoFields(fields: seq<Field>, obs: Obs, ka: string, kb: string, a: Tensor, b: Tensor)
    requires ka != kb
    requires |fields| == 2 && fields[0].key == kb && fields[1].key == ka
    requires obs == Mapping(map[ka := NdArray(a), kb := NdArray(b)])
    ensures EncodeFields(Torch, 1, obs, fields, [ka, kb])
         == Ok([Tensor([1, |a.data|], a.data, Float32), Tensor([1, |b.data|], b.data, Float32)])
  {
    var pa, pb := Tensor([1, |a.data|], a.data, Float32), Tensor([1, |b.data|], b.data, Float32);
    assert FieldKeys(fields) == [kb, ka];
    assert IndexOf(FieldKeys(fields), kb) == Some(0);
    assert IndexOf(FieldKeys(fields), ka) == Some(1);
    assert Encode(Torch, 1, NdArray(a), fields[1].space) == Ok(pa);
    assert Encode(Torch, 1, NdArray(b), fields[0].space) == Ok(pb);
    var keysB: seq<string> := [kb];
    assert keysB[0] == kb && keysB[1..] == [];
    assert EncodeFields(Torch, 1, obs, fields, keysB[1..]) == Ok([]);
    assert Subscript(obs, keysB[0]) == Ok(NdArray(b));
    assert [pb] + [] == [pb];
    assert EncodeFields(Torch, 1, obs, fields, keysB) == Ok([pb]);
    var keysAB: seq<string> := [ka, kb];
    assert keysAB[0] == ka && keysAB[1..] == keysB;
    assert Subscript(obs, keysAB[0]) == Ok(NdArray(a));
    assert [pa] + [pb] == [pa, pb];
  }

  lemma ConcatTwo(a: Tensor, b: Tensor)
    ensures var pa, pb := Tensor([1, |a.data|], a.data, Float32), Tensor([1, |b.data|], b.data, Float32);
      View(CatAll(Torch, [pa, pb], 1), 1) == Ok(Tensor([1, |a.data| + |b.data|], a.data + b.data, Float32))
  {
    var pa, pb := Tensor([1, |a.data|], a.data, Float32), Tensor([1, |b.data|], b.data, Float32);
    var c := CatAll(Torch, [pa, pb], 1);
    CatAllSingleRow(Torch, [pa, pb]);
    assert [pa, pb][1..] == [pb] && [pb][1..] == [];
    assert AllData([pa, pb]) == a.data + b.data;
    assert c.shape == [1, |a.data| + |b.data|];
    assert c.dtype == Float32;
    ViewOfRows(c, 1);
  }

  /** A Dict space that declares key `kb` before a smaller key `ka` still places `ka`'s
      features first: the concatenation follows sorted key order, not declaration order. */
  lemma DictFieldOrderExample(ka: string, kb: string, a: Tensor, b: Tensor, sa: Space, sb: Space)
    requires StrLess(ka, kb)
    ensures Encode(Torch, 1, Mapping(map[ka := NdArray(a), kb := NdArray(b)]), Dict([Field(kb, sb), Field(ka, sa)]))
         == Ok(Tensor([1, |a.data| + |b.data|], a.data + b.data, Float32))
  {
    StrLessIrreflexive(ka);
    var fields := [Field(kb, sb), Field(ka, sa)];
    var obs := Mapping(map[ka := NdArray(a), kb := NdArray(b)]);
    var parts := [Tensor([1, |a.data|], a.data, Float32), Tensor([1, |b.data|], b.data, Float32)];
    var keys := SortKeys(FieldKeys(fields));
    assert keys == [ka, kb] by {
      assert FieldKeys(fields) == [kb, ka];
      SortTwoKeys(ka, kb);
    }
    assert EncodeFields(Torch, 1, obs, fields, keys) == Ok(parts) by {
      TwoFields(fields, obs, ka, kb, a, b);
    }
    assert View(CatAll(Torch, parts, 1), 1) == Ok(Tensor([1, |a.data| + |b.data|], a.data + b.data, Float32)) by {
      ConcatTwo(a, b);
    }
    SortKeysAreKeys(FieldKeys(fields));
    EncodeDictUnfold(Torch, 1, obs, fields, parts);
  }

  /** The Dict branch of `Encode` once its fields are encoded. */
  lemma EncodeDictUnfold(lib: ArrayLib, numEnvs: nat, obs: Obs, fields: seq<Field>, parts: seq<Tensor>)
    requires !obs.PyInt? && !obs.NdArray? && parts != []
    requires forall j | 0 <= j < |SortKeys(FieldKeys(fields))| :: SortKeys(FieldKeys(fields))[j] in FieldKeys(fields)
    requires EncodeFields(lib, numEnvs, obs, fields, SortKeys(FieldKeys(fields))) == Ok(parts)
    ensures forall j | 0 <= j < |parts| :: HasRows(parts[j], numEnvs)
    ensures Encode(lib, numEnvs, obs, Dict(fields)) == View(CatAll(lib, parts, numEnvs), numEnvs)
  {
  }

  /** `_tensor_to_action(actions, space)`: a Discrete action is the tensor's single element
      (`actions.item()`); a Box action is the tensor cast to the space's dtype and reshaped to
      the space's shape; every other space, Dict included, is rejected. */
  function Decode(actions: Tensor, space: Space): (r: Result<Action>)
    ensures r.Ok? <==> || (space.Discrete? && |actions.data| == 1)
                       || (space.Box? && Product(space.shape) == |actions.data|)
    ensures r.Ok? && space.Discrete? ==> r.value == ScalarAction(actions.data[0])
    ensures r.Ok? && space.Box? ==>
      && r.value.ArrayAction? && WellFormed(r.value.tensor)
      && r.value.tensor.shape == space.shape && r.value.tensor.data == actions.data
      && r.value.tensor.dtype == space.dtype
    ensures space.Dict? || space.Unsupported? ==> r.Err?
  {
    match space
    case Discrete(_) => if |actions.data| == 1 then Ok(ScalarAction(actions.data[0])) else Err(ShapeMismatch)
    case Box(_, _, shape, dtype) =>
      (match Reshape(Tensor(actions.shape, actions.data, dtype), shape)
       case Ok(a) => Ok(ArrayAction(a))
       case Err(e) => Err(e))
    case Dict(_) => Err(UnsupportedSpace("Dict"))
    case Unsupported(kind) => Err(UnsupportedSpace(kind))
  }

  /** Decoding the encoding of a Box-shaped array gives the array back: the encoder flattens
      and floats it, the decoder restores the space's shape and dtype. */
  lemma DecodeEncodeBox(lib: ArrayLib, numEnvs: nat, t: Tensor, space: Space)
    requires space.Box? && WellFormed(t) && t.shape == space.shape && t.dtype == space.dtype
    requires Encode(lib, numEnvs, NdArray(t), space).Ok?
    ensures Decode(Encode(lib, numEnvs, NdArray(t), space).value, space) == Ok(ArrayAction(t))
  {
  }

  /** Decoding the encoding of a Discrete observation of a single environment gives its value. */
  lemma DecodeEncodeDiscrete(lib: ArrayLib, i: int, n: nat)
    ensures Encode(lib, 1, PyInt(i), Discrete(n)).Ok?
    ensures Decode(Encode(lib, 1, PyInt(i), Discrete(n)).value, Discrete(n)) == Ok(ScalarAction(Fin(i as real)))
  {
  }

  /** What a Gym environment's `step` returns: observation, reward, done flag and info. */
  datatype GymResponse = GymResponse(observation: Obs, reward: Obs, done: Obs, info: Info)

  /** `GymWrapper.step(actions)`: the action is decoded by the action space and handed to the
      environment (`env`); the observation is encoded by the observation space, the reward is
      viewed as float32 rows and the done flag as bool rows, one row per environment, and the
      info is passed on unchanged. */
  function GymStep(numEnvs: nat, obsSpace: Space, actSpace: Space, actions: Tensor, env: Action -> GymResponse)
    : (r: Result<Transition>)
    ensures Decode(actions, actSpace).Err? ==> r == Err(Decode(actions, actSpace).error)
    ensures r.Ok? <==>
      && Decode(actions, actSpace).Ok?
      && var resp := env(Decode(actions, actSpace).value);
      && Encode(Torch, numEnvs, resp.observation, obsSpace).Ok?
      && !resp.reward.Mapping? && !resp.done.Mapping? && numEnvs > 0
      && |LeafElements(resp.reward)| % numEnvs == 0 && |LeafElements(resp.done)| % numEnvs == 0
    ensures r.Ok? ==>
      var resp := env(Decode(actions, actSpace).value);
      && Ok(r.value.observation) == Encode(Torch, numEnvs, resp.observation, obsSpace)
      && HasRows(r.value.reward, numEnvs) && r.value.reward.dtype == Float32
      && r.value.reward.data == LeafElements(resp.reward)
      && HasRows(r.value.done, numEnvs) && r.value.done.dtype == Bool
      && r.value.done.data == LeafElements(resp.done)
      && r.value.info == resp.info
  {
    var action :- Decode(actions, actSpace);
    var resp := env(action);
    var observation :- Encode(Torch, numEnvs, resp.observation, obsSpace);
    var reward :- ViewAs(resp.reward, Float32, numEnvs);
    var done :- ViewAs(resp.done, Bool, numEnvs);
    Ok(Transition(observation, reward, done, resp.info))
  }
}

/** The DeepMind (`dm_env`) wrapper: conversion of specs to spaces, the spec-driven
    observation encoder and action decoder, and the shaping of a `TimeStep` into a step result. */
module DeepMind {
  import opened Common
  import opened Tensors
  import opened Keys
  import opened Spaces
  import opened Values
  import opened Codec

  datatype SpecEntry = SpecEntry(key: string, spec: Spec)

  /** A `dm_env.specs` spec. In `dm_env` a DiscreteArray is a BoundedArray and a BoundedArray
      is an Array; the wrapper tests them from the most to the least specific, so the three
      are disjoint here. `OrderedDict` keeps its entries in order; `OtherSpec` is any other value. */
  datatype Spec =
    | DiscreteArray(numValues: nat, dtype: DType)
    | BoundedArray(shape: seq<nat>, dtype: DType, minimum: Tensor, maximum: Tensor)
    | Array(shape: seq<nat>, dtype: DType)
    | OrderedDict(entries: seq<SpecEntry>)
    | OtherSpec(kind: string)

  /** Specs the wrapper can convert: array specs and ordered dicts of convertible specs. */
  predicate Supported(spec: Spec)
    decreases spec
  {
    match spec
    case OtherSpec(_) => false
    case OrderedDict(entries) => forall i | 0 <= i < |entries| :: Supported(entries[i].spec)
    case _ => true
  }

  function EntryKeys(entries: seq<SpecEntry>): (ks: seq<string>)
    ensures |ks| == |entries| && forall i | 0 <= i < |entries| :: ks[i] == entries[i].key
  {
    seq(|entries|, i requires 0 <= i < |entries| => entries[i].key)
  }

  /** `spec[k]` on an OrderedDict spec. */
  function EntrySpec(entries: seq<SpecEntry>, k: string): Spec
    requires k in EntryKeys(entries)
  {
    entries[IndexOf(EntryKeys(entries), k).value].spec
  }

  /** `_spec_to_space(spec)`. An OrderedDict spec is converted entry by entry, in its own
      order, into the plain dict handed to `gym.spaces.Dict`, which lists it sorted by key. */
  function SpecToSpace(spec: Spec): (r: Result<Space>)
    ensures r.Ok? <==> Supported(spec)
    ensures spec.DiscreteArray? ==> r == Ok(Discrete(spec.numValues))
    ensures spec.BoundedArray? ==> r == Ok(Box(spec.minimum, spec.maximum, spec.shape, spec.dtype))
    ensures spec.Array? ==>
      && r.Ok? && r.value.Box? && r.value.shape == spec.shape && r.value.dtype == spec.dtype
      && r.value.low.shape == spec.shape && (forall i | 0 <= i < |r.value.low.data| :: r.value.low.data[i] == NegInf)
      && r.value.high.shape == spec.shape && (forall i | 0 <= i < |r.value.high.data| :: r.value.high.data[i] == PosInf)
    ensures spec.OrderedDict? && r.Ok? ==>
      && r.value.Dict? && FieldKeys(r.value.fields) == SortKeys(EntryKeys(spec.entries))
      && forall j | 0 <= j < |r.value.fields| ::
           var i := IndexOf(EntryKeys(spec.entries), r.value.fields[j].key);
           i.Some? && SpecToSpace(spec.entries[i.value].spec) == Ok(r.value.fields[j].space)
    ensures spec.OtherSpec? ==> r == Err(UnsupportedSpec(spec.kind))
    decreases spec, 1
  {
    match spec
    case DiscreteArray(n, _) => Ok(Discrete(n))
    case BoundedArray(shape, dtype, lo, hi) => Ok(Box(lo, hi, shape, dtype))
    case Array(shape, dtype) => Ok(Box(Full(shape, NegInf, dtype), Full(shape, PosInf, dtype), shape, dtype))
    case OrderedDict(entries) =>
      var fields :- EntriesToFields(entries);
      assert FieldKeys(fields) == EntryKeys(entries);
      Ok(Dict(SortedFields(fields)))
    case OtherSpec(kind) => Err(UnsupportedSpec(kind))
  }

  /** `{k: _spec_to_space(v) for k, v in spec.items()}`, failing on the first entry that fails. */
  function EntriesToFields(entries: seq<SpecEntry>): (r: Result<seq<Field>>)
    ensures r.Ok? <==> forall i | 0 <= i < |entries| :: Supported(entries[i].spec)
    ensures r.Ok? ==> |r.value| == |entries| && forall i | 0 <= i < |entries| ::
      r.value[i].key == entries[i].key && SpecToSpace(entries[i].spec) == Ok(r.value[i].space)
    decreases entries, 0
  {
    if entries == [] then Ok([])
    else
      var space :- SpecToSpace(entries[0].spec);
      var rest :- EntriesToFields(entries[1..]);
      Ok([Field(entries[0].key, space)] + rest)
  }

  /** `_observation_to_tensor(observation, spec)`: array specs of every kind are floated and
      viewed as `(num_envs, -1)`; an OrderedDict concatenates its entries in sorted key order. */
  function DmEncode(numEnvs: nat, obs: Obs, spec: Spec): (r: Result<Tensor>)
    ensures r.Ok? ==> HasRows(r.value, numEnvs)
    ensures spec.DiscreteArray? || spec.BoundedArray? || spec.Array? ==> r == FloatView(obs, numEnvs)
    ensures spec.OtherSpec? ==> r == Err(UnsupportedSpec(spec.kind))
    decreases spec, 1, 0
  {
    match spec
    case OrderedDict(entries) =>
      var keys := SortKeys(EntryKeys(entries));
      SortKeysAreKeys(EntryKeys(entries));
      ConcatParts(Torch, numEnvs, DmEncodeEntries(numEnvs, obs, entries, keys))
    case OtherSpec(kind) => Err(UnsupportedSpec(kind))
    case _ => FloatView(obs, numEnvs)
  }

  /** The encodings of `observation[k]` under `spec[k]` for each `k` of `keys`, in order. */
  function DmEncodeEntries(numEnvs: nat, obs: Obs, entries: seq<SpecEntry>, keys: seq<string>)
    : (r: Result<seq<Tensor>>)
    requires forall j | 0 <= j < |keys| :: keys[j] in EntryKeys(entries)
    ensures r.Ok? ==> |r.value| == |keys| && forall j | 0 <= j < |keys| :: HasRows(r.value[j], numEnvs)
    decreases entries, 0, |keys|
  {
    if keys == [] then Ok([])
    else
      var sub :- Subscript(obs, keys[0]);
      var i := IndexOf(EntryKeys(entries), keys[0]).value;
      var head :- DmEncode(numEnvs, sub, entries[i].spec);
      var tail :- DmEncodeEntries(numEnvs, obs, entries, keys[1..]);
      Ok([head] + tail)
  }

  /** The observations on which the DeepMind encoder and the Gym encoder, applied to the
      converted space, are meant to coincide: no bare Python int at an array spec (Gym would
      keep it as int64), and no bare int or array where an OrderedDict is expected (Gym would
      flatten it instead of indexing it). */
  predicate ObsFits(obs: Obs, spec: Spec)
    decreases spec
  {
    match spec
    case OrderedDict(entries) =>
      && !obs.PyInt? && !obs.NdArray?
      && forall i | 0 <= i < |entries| ::
           obs.Mapping? && entries[i].key in obs.entries ==> ObsFits(obs.entries[entries[i].key], entries[i].spec)
    case _ => !obs.PyInt?
  }

  /** On fitting observations, encoding by spec is encoding by the space the spec converts to. */
  lemma {:induction false} DmEncodeMatchesGym(numEnvs: nat, obs: Obs, spec: Spec)
    requires Supported(spec) && ObsFits(obs, spec)
    ensures DmEncode(numEnvs, obs, spec) == Encode(Torch, numEnvs, obs, SpecToSpace(spec).value)
    decreases spec, 1, 0
  {
    if spec.OrderedDict? {
      DmEncodeDictMatchesGym(numEnvs, obs, spec.entries);
    }
  }

  lemma {:induction false} DmEncodeDictMatchesGym(numEnvs: nat, obs: Obs, entries: seq<SpecEntry>)
    requires Supported(OrderedDict(entries)) && ObsFits(obs, OrderedDict(entries))
    ensures DmEncode(numEnvs, obs, OrderedDict(entries))
         == EncodeDict(Torch, numEnvs, obs, SpecToSpace(OrderedDict(entries)).value.fields)
    decreases OrderedDict(entries), 0, 0
  {
    var fields := SpecToSpace(OrderedDict(entries)).value.fields;
    var keys := SortKeys(EntryKeys(entries));
    ConvertedFields(entries, fields);
    DmEncodeEntriesMatch(numEnvs, obs, entries, fields, keys);
  }

  /** The fields of a converted OrderedDict, visited in sorted key order, are the entries'
      keys in sorted order, each with its entry's converted spec. */
  lemma ConvertedFields(entries: seq<SpecEntry>, fields: seq<Field>)
    requires Supported(OrderedDict(entries)) && fields == SpecToSpace(OrderedDict(entries)).value.fields
    ensures SortKeys(FieldKeys(fields)) == SortKeys(EntryKeys(entries))
    ensures var keys := SortKeys(EntryKeys(entries));
      forall j | 0 <= j < |keys| ::
        && keys[j] in EntryKeys(entries) && keys[j] in FieldKeys(fields)
        && SpecToSpace(EntrySpec(entries, keys[j])) == Ok(FieldSpace(fields, keys[j]))
  {
    var keys := SortKeys(EntryKeys(entries));
    SortKeysIdempotent(EntryKeys(entries));
    SortKeysAreKeys(EntryKeys(entries));
    forall j | 0 <= j < |keys|
      ensures keys[j] in FieldKeys(fields)
      ensures SpecToSpace(EntrySpec(entries, keys[j])) == Ok(FieldSpace(fields, keys[j]))
    {
      var m := IndexOf(FieldKeys(fields), keys[j]).value;
      assert fields[m].key == keys[j];
    }
  }

  lemma {:induction false} DmEncodeEntriesMatch(numEnvs: nat, obs: Obs, entries: seq<SpecEntry>, fields: seq<Field>, keys: seq<string>)
    requires forall i | 0 <= i < |entries| :: Supported(entries[i].spec)
    requires !obs.PyInt? && !obs.NdArray?
    requires forall i | 0 <= i < |entries| ::
      obs.Mapping? && entries[i].key in obs.entries ==> ObsFits(obs.entries[entries[i].key], entries[i].spec)
    requires forall j | 0 <= j < |keys| :: keys[j] in EntryKeys(entries)
    requires forall j | 0 <= j < |keys| ::
      keys[j] in FieldKeys(fields) && SpecToSpace(EntrySpec(entries, keys[j])) == Ok(FieldSpace(fields, keys[j]))
    ensures DmEncodeEntries(numEnvs, obs, entries, keys) == EncodeFields(Torch, numEnvs, obs, fields, keys)
    decreases entries, 0, |keys|
  {
    if keys != [] {
      var i := IndexOf(EntryKeys(entries), keys[0]).value;
      if obs.Mapping? && keys[0] in obs.entries {
        DmEncodeMatchesGym(numEnvs, obs.entries[keys[0]], entries[i].spec);
      }
      DmEncodeEntriesMatch(numEnvs, obs, entries, fields, keys[1..]);
    }
  }

  /** `_tensor_to_action(actions)`: a DiscreteArray action is the tensor's single element as a
      0-d array of the spec's dtype; a (Bounded)Array action is the tensor cast to the spec's
      dtype and reshaped to the spec's shape; an OrderedDict or any other spec is rejected. */
  function DmDecode(actions: Tensor, spec: Spec): (r: Result<Action>)
    ensures r.Ok? <==> || (spec.DiscreteArray? && |actions.data| == 1)
                       || ((spec.BoundedArray? || spec.Array?) && Product(spec.shape) == |actions.data|)
    ensures r.Ok? && spec.DiscreteArray? ==> r.value == ArrayAction(Tensor([], [actions.data[0]], spec.dtype))
    ensures r.Ok? && !spec.DiscreteArray? ==>
      && r.value.ArrayAction? && WellFormed(r.value.tensor)
      && r.value.tensor.shape == spec.shape && r.value.tensor.data == actions.data
      && r.value.tensor.dtype == spec.dtype
    ensures spec.OrderedDict? ==> r == Err(UnsupportedSpec("OrderedDict"))
    ensures spec.OtherSpec? ==> r == Err(UnsupportedSpec(spec.kind))
  {
    match spec
    case DiscreteArray(_, dtype) =>
      if |actions.data| == 1 then Ok(ArrayAction(Tensor([], [actions.data[0]], dtype))) else Err(ShapeMismatch)
    case BoundedArray(shape, dtype, _, _) => ArrayAs(actions, shape, dtype)
    case Array(shape, dtype) => ArrayAs(actions, shape, dtype)
    case OrderedDict(_) => Err(UnsupportedSpec("OrderedDict"))
    case OtherSpec(kind) => Err(UnsupportedSpec(kind))
  }

  /** `np.array(actions, dtype=dtype).reshape(shape)`. */
  function ArrayAs(actions: Tensor, shape: seq<nat>, dtype: DType): Result<Action>
  {
    match Reshape(Tensor(actions.shape, actions.data, dtype), shape)
    case Ok(a) => Ok(ArrayAction(a))
    case Err(e) => Err(e)
  }

  /** Decoding by an array spec agrees with decoding by the space it converts to: the same
      array for (Bounded)Array specs, and for a DiscreteArray spec the same element, wrapped
      in a 0-d array where the Gym decoder returns the bare scalar. */
  lemma DmDecodeMatchesGym(actions: Tensor, spec: Spec)
    requires spec.DiscreteArray? || spec.BoundedArray? || spec.Array?
    ensures spec.DiscreteArray? ==>
      && (DmDecode(actions, spec).Ok? <==> Decode(actions, SpecToSpace(spec).value).Ok?)
      && (DmDecode(actions, spec).Ok? ==>
            && Decode(actions, SpecToSpace(spec).value).value.ScalarAction?
            && DmDecode(actions, spec).value.tensor.data == [Decode(actions, SpecToSpace(spec).value).value.x])
    ensures !spec.DiscreteArray? ==> DmDecode(actions, spec) == Decode(actions, SpecToSpace(spec).value)
  {
  }

  datatype StepType = First | Mid | Last

  /** A `dm_env.TimeStep`; a missing reward is `None`. */
  datatype TimeStep = TimeStep(stepType: StepType, reward: Option<Obs>, observation: Obs)

  /** `TimeStep.last()`, a Python bool. */
  function DoneFlag(ts: TimeStep): Obs
  {
    PyInt(if ts.stepType == Last then 1 else 0)
  }

  /** `torch.tensor(reward, dtype=float32).view(num_envs, -1)`, where a missing reward is 0. */
  function RewardRows(ts: TimeStep, numEnvs: nat): (r: Result<Tensor>)
    ensures ts.reward.None? ==> (r.Ok? <==> numEnvs == 1)
    ensures ts.reward.None? && r.Ok? ==> r.value == Tensor([1, 1], [Fin(0.0)], Float32)
    ensures ts.reward.Some? ==> r == ViewAs(ts.reward.value, Float32, numEnvs)
  {
    ViewAs(if ts.reward.Some? then ts.reward.value else PyInt(0), Float32, numEnvs)
  }

  /** `torch.tensor(timestep.last(), dtype=torch.bool).view(num_envs, -1)`: a single flag,
      so only a single environment can view it as rows. */
  function DoneRows(ts: TimeStep, numEnvs: nat): (r: Result<Tensor>)
    ensures r.Ok? <==> numEnvs == 1
    ensures r.Ok? ==> r.value == Tensor([1, 1], [Fin(if ts.stepType == Last then 1.0 else 0.0)], Bool)
  {
    ViewAs(DoneFlag(ts), Bool, numEnvs)
  }

  /** `step(actions)`: the action is decoded by the action spec and handed to the backend
      (`env`); the time step's observation is encoded by the observation spec, a missing
      reward becomes 0, the done flag is `last()`, and the info dict is empty. */
  function DmStep(numEnvs: nat, obsSpec: Spec, actSpec: Spec, actions: Tensor, env: Action -> TimeStep)
    : (r: Result<Transition>)
    ensures r.Ok? ==> DmDecode(actions, actSpec).Ok?
    ensures r.Ok? ==>
      var ts := env(DmDecode(actions, actSpec).value);
      && numEnvs == 1
      && Ok(r.value.observation) == DmEncode(numEnvs, ts.observation, obsSpec)
      && r.value.reward.dtype == Float32 && HasRows(r.value.reward, 1)
      && (ts.reward.None? ==> r.value.reward.data == [Fin(0.0)])
      && (ts.reward.Some? ==> !ts.reward.value.Mapping? && r.value.reward.data == LeafElements(ts.reward.value))
      && r.value.done == Tensor([1, 1], [Fin(if ts.stepType == Last then 1.0 else 0.0)], Bool)
      && r.value.info == map[]
    ensures DmDecode(actions, actSpec).Ok? && numEnvs == 1 ==>
      var ts := env(DmDecode(actions, actSpec).value);
      (r.Ok? <==> DmEncode(1, ts.observation, obsSpec).Ok? && (ts.reward.Some? ==> !ts.reward.value.Mapping?))
  {
    var action :- DmDecode(actions, actSpec);
    var ts := env(action);
    var observation :- DmEncode(numEnvs, ts.observation, obsSpec);
    var rewardT :- RewardRows(ts, numEnvs);
    var doneT :- DoneRows(ts, numEnvs);
    Ok(Transition(observation, rewardT, doneT, map[]))
  }
}

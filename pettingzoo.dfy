/** The PettingZoo (parallel API) multi-agent adapter: per-agent space maps, the shared
    observation space, the numpy observation encoder and action decoder, and the shaping of
    `step` and `reset` results, including the `shared_states` info entry. */
module PettingZoo {
  import opened Common
  import opened Tensors
  import opened Keys
  import opened Spaces
  import opened Values
  import opened Codec

  /** A Python dict keyed by agent name, in insertion order. */
  type AgentDict<V> = seq<(string, V)>

  function DictKeys<V>(d: AgentDict<V>): (ks: seq<string>)
    ensures |ks| == |d| && forall j | 0 <= j < |d| :: ks[j] == d[j].0
  {
    seq(|d|, j requires 0 <= j < |d| => d[j].0)
  }

  /** `d[k]`: the value of the first entry with key `k`, or a KeyError. */
  function Lookup<V(==)>(d: AgentDict<V>, k: string): (r: Result<V>)
    ensures r.Ok? <==> k in DictKeys(d)
    ensures r.Ok? ==> var j := IndexOf(DictKeys(d), k).value; d[j].0 == k && d[j].1 == r.value
    ensures r.Err? ==> r.error == MissingKey(k)
  {
    match IndexOf(DictKeys(d), k)
    case Some(j) => Ok(d[j].1)
    case None => Err(MissingKey(k))
  }

  /** `{k: f(k, v) for k, v in d.items()}` where `f` may raise: the first failing entry's
      error, or every key with its converted value, in the same order. */
  function MapValues<V, W>(d: AgentDict<V>, f: (string, V) -> Result<W>): (r: Result<AgentDict<W>>)
    ensures r.Ok? <==> forall j | 0 <= j < |d| :: f(d[j].0, d[j].1).Ok?
    ensures r.Ok? ==> |r.value| == |d| && forall j | 0 <= j < |d| :: r.value[j] == (d[j].0, f(d[j].0, d[j].1).value)
    ensures r.Err? ==> exists j | 0 <= j < |d| ::
      && f(d[j].0, d[j].1).Err? && r.error == f(d[j].0, d[j].1).error
      && forall i | 0 <= i < j :: f(d[i].0, d[i].1).Ok?
  {
    if d == [] then Ok([])
    else
      match f(d[0].0, d[0].1)
      case Err(e) => Err(e)
      case Ok(w) =>
        match MapValues(d[1..], f)
        case Err(e) =>
          var j :| 0 <= j < |d[1..]| && f(d[1..][j].0, d[1..][j].1).Err? && e == f(d[1..][j].0, d[1..][j].1).error
                   && forall i | 0 <= i < j :: f(d[1..][i].0, d[1..][i].1).Ok?;
          assert forall i | 0 < i < j + 1 :: f(d[i].0, d[i].1).Ok? by {
            forall i | 0 < i < j + 1 ensures f(d[i].0, d[i].1).Ok? {
              assert d[i] == d[1..][i - 1];
            }
          }
          Err(e)
        case Ok(rest) => Ok([(d[0].0, w)] + rest)
  }

  /** The parallel environment, as far as the adapter uses it. `observationSpaces` is its
      `observation_spaces` dict; the two functions are its `observation_space(uid)` and
      `action_space(uid)` methods. */
  datatype ParallelEnv = ParallelEnv(
    possibleAgents: seq<string>,
    observationSpaces: AgentDict<Space>,
    observationSpace: string -> Space,
    actionSpace: string -> Space)

  datatype PettingZooWrapper = PettingZooWrapper(env: ParallelEnv, numEnvs: nat, sharedObservationSpace: Space)

  /** `_compute_shared_observation_space`: a Box whose shape is the number of possible agents
      followed by the first observation space's shape, and whose bounds stack that space's
      bounds once per possible agent. The first space must be a Box (only a Box has bounds),
      and stacking needs at least one possible agent. */
  function SharedObservationSpace(possibleAgents: seq<string>, observationSpaces: AgentDict<Space>): (r: Result<Space>)
    ensures observationSpaces == [] ==> r == Err(NoObservationSpaces)
    ensures observationSpaces != [] && !observationSpaces[0].1.Box? ==> r == Err(NoBoxBounds)
    ensures r.Ok? <==> observationSpaces != [] && observationSpaces[0].1.Box? && |possibleAgents| > 0
    ensures r.Ok? ==>
      var s, n := observationSpaces[0].1, |possibleAgents|;
      && r.value.Box? && r.value.shape == [n] + s.shape && r.value.dtype == s.dtype
      && r.value.low.shape == [n] + s.low.shape && |r.value.low.data| == n * |s.low.data|
      && Chunks(r.value.low.data, |s.low.data|, n) == seq(n, _ => s.low.data)
      && r.value.high.shape == [n] + s.high.shape && |r.value.high.data| == n * |s.high.data|
      && Chunks(r.value.high.data, |s.high.data|, n) == seq(n, _ => s.high.data)
  {
    if observationSpaces == [] then Err(NoObservationSpaces)
    else
      var space := observationSpaces[0].1;
      if !space.Box? then Err(NoBoxBounds)
      else if |possibleAgents| == 0 then Err(EmptyConcat)
      else
        var n := |possibleAgents|;
        StackCopies(space.low, n);
        StackCopies(space.high, n);
        var low := Stack(seq(n, _ => space.low)).value;
        var high := Stack(seq(n, _ => space.high)).value;
        Ok(Box(low, high, [n] + space.shape, space.dtype))
  }

  /** Wrapping computes the shared observation space, and fails when it cannot. */
  function Wrap(env: ParallelEnv, numEnvs: nat): (r: Result<PettingZooWrapper>)
    ensures r.Ok? <==> SharedObservationSpace(env.possibleAgents, env.observationSpaces).Ok?
    ensures r.Ok? ==>
      && r.value.env == env && r.value.numEnvs == numEnvs
      && r.value.sharedObservationSpace == SharedObservationSpace(env.possibleAgents, env.observationSpaces).value
  {
    var shared :- SharedObservationSpace(env.possibleAgents, env.observationSpaces);
    Ok(PettingZooWrapper(env, numEnvs, shared))
  }

  /** `num_agents`. */
  function NumAgents(w: PettingZooWrapper): (n: nat)
    ensures n == |w.env.possibleAgents|
  {
    |w.env.possibleAgents|
  }

  /** `observation_spaces`: each possible agent's own observation space. */
  function ObservationSpaces(w: PettingZooWrapper): (m: map<string, Space>)
    ensures m.Keys == set uid | uid in w.env.possibleAgents
    ensures forall uid | uid in m :: m[uid] == w.env.observationSpace(uid)
  {
    map uid | uid in w.env.possibleAgents :: w.env.observationSpace(uid)
  }

  /** `action_spaces`: each possible agent's own action space. */
  function ActionSpaces(w: PettingZooWrapper): (m: map<string, Space>)
    ensures m.Keys == set uid | uid in w.env.possibleAgents
    ensures forall uid | uid in m :: m[uid] == w.env.actionSpace(uid)
  {
    map uid | uid in w.env.possibleAgents :: w.env.actionSpace(uid)
  }

  /** `shared_observation_spaces`: the one shared space, under every possible agent. */
  function SharedObservationSpaces(w: PettingZooWrapper): (m: map<string, Space>)
    ensures m.Keys == set uid | uid in w.env.possibleAgents
    ensures forall uid | uid in m :: m[uid] == w.sharedObservationSpace
  {
    map uid | uid in w.env.possibleAgents :: w.sharedObservationSpace
  }

  lemma {:induction false} DistinctCard(s: seq<string>)
    requires Distinct(s)
    ensures |set x | x in s| == |s|
  {
    if s != [] {
      DistinctCard(s[1..]);
      assert s[0] !in s[1..];
      assert (set x | x in s) == {s[0]} + (set x | x in s[1..]);
    }
  }

  /** With pairwise different agent names, each space map has one entry per agent. */
  lemma SpaceMapsHaveNumAgentsEntries(w: PettingZooWrapper)
    requires Distinct(w.env.possibleAgents)
    ensures |ObservationSpaces(w)| == NumAgents(w)
    ensures |ActionSpaces(w)| == NumAgents(w)
    ensures |SharedObservationSpaces(w)| == NumAgents(w)
  {
    DistinctCard(w.env.possibleAgents);
    assert ObservationSpaces(w).Keys == set uid | uid in w.env.possibleAgents;
    assert ActionSpaces(w).Keys == set uid | uid in w.env.possibleAgents;
    assert SharedObservationSpaces(w).Keys == set uid | uid in w.env.possibleAgents;
  }

  /** `_observation_to_tensor` as the numpy adapter writes it. `ndarray.view(num_envs, -1)`
      reads `num_envs` as a dtype, so the two branches that end with it (a bare int, and a
      Dict once its fields are encoded) always raise; the other branches reshape. */
  function EncodeAsWritten(numEnvs: nat, obs: Obs, space: Space): (r: Result<Tensor>)
    ensures obs.PyInt? ==> r == Err(InvalidViewDType)
    ensures !obs.PyInt? && !obs.NdArray? && space.Dict? ==> r.Err?
    ensures !obs.PyInt? && !space.Dict? ==> r == Encode(NumPy, numEnvs, obs, space)
    decreases space, 1, 0
  {
    if obs.PyInt? then Err(InvalidViewDType)
    else if obs.NdArray? then View(ToArray(obs, Float32).value, numEnvs)
    else
      match space
      case Discrete(_) => FloatView(obs, numEnvs)
      case Box(_, _, _, _) => ReshapeMethod(obs, numEnvs)
      case Dict(fields) =>
        var keys := SortKeys(FieldKeys(fields));
        SortKeysAreKeys(FieldKeys(fields));
        var parts :- EncodeFieldsAsWritten(numEnvs, obs, fields, keys);
        if parts == [] then Err(EmptyConcat) else Err(InvalidViewDType)
      case Unsupported(kind) => Err(UnsupportedSpace(kind))
  }

  function EncodeFieldsAsWritten(numEnvs: nat, obs: Obs, fields: seq<Field>, keys: seq<string>)
    : (r: Result<seq<Tensor>>)
    requires forall j | 0 <= j < |keys| :: keys[j] in FieldKeys(fields)
    decreases fields, 0, |keys|
  {
    if keys == [] then Ok([])
    else
      var sub :- Subscript(obs, keys[0]);
      var i := IndexOf(FieldKeys(fields), keys[0]).value;
      var head :- EncodeAsWritten(numEnvs, sub, fields[i].space);
      var tail :- EncodeFieldsAsWritten(numEnvs, obs, fields, keys[1..]);
      Ok([head] + tail)
  }

  /** As written, no bare int can be encoded (`view` reads `num_envs` as a dtype), although
      reshaping, as the corrected encoder `Encode(NumPy, ...)` does, gives a one-element row. */
  lemma AsWrittenRejectsInts(i: int)
    ensures forall space :: EncodeAsWritten(1, PyInt(i), space) == Err(InvalidViewDType)
    ensures forall space :: Encode(NumPy, 1, PyInt(i), space) == Ok(Tensor([1, 1], [Fin(i as real)], Int32))
  {
    forall space ensures Encode(NumPy, 1, PyInt(i), space) == Ok(Tensor([1, 1], [Fin(i as real)], Int32)) {
      ViewOfRows(Tensor([1, 1], [Fin(i as real)], Int32), 1);
    }
  }

  /** The corrected encoder does encode a Dict observation: one Discrete field `k` holding a
      scalar becomes a one-element row. */
  lemma CorrectedEncodesDict(k: string, x: Num)
    ensures Encode(NumPy, 1, Mapping(map[k := NpScalar(x)]), Dict([Field(k, Discrete(2))]))
         == Ok(Tensor([1, 1], [x], Float32))
  {
    var fs := [Field(k, Discrete(2))];
    var obs := Mapping(map[k := NpScalar(x)]);
    var t := Tensor([1, 1], [x], Float32);
    var keys := SortKeys(FieldKeys(fs));
    assert keys == [k] by {
      assert FieldKeys(fs) == [k];
      assert [k][1..] == [];
    }
    assert EncodeFields(NumPy, 1, obs, fs, keys) == Ok([t]) by {
      assert keys[0] == k && keys[1..] == [];
      assert IndexOf(FieldKeys(fs), k) == Some(0);
      assert Subscript(obs, keys[0]) == Ok(NpScalar(x));
      assert Encode(NumPy, 1, NpScalar(x), fs[0].space) == Ok(t);
      assert EncodeFields(NumPy, 1, obs, fs, keys[1..]) == Ok([]);
      assert [t] + [] == [t];
    }
    assert View(CatAll(NumPy, [t], 1), 1) == Ok(t) by {
      CatAllSingleRow(NumPy, [t]);
      assert [t][1..] == [];
      ViewOfRows(t, 1);
    }
    SortKeysAreKeys(FieldKeys(fs));
    EncodeDictUnfold(NumPy, 1, obs, fs, [t]);
  }

  /** The elements of a list of non-mapping observations, one after the other. */
  function LeafData(os: seq<Obs>): seq<Num>
    requires forall j | 0 <= j < |os| :: !os[j].Mapping?
  {
    if os == [] then [] else LeafElements(os[0]) + LeafData(os[1..])
  }

  /** The shape `np.asarray` gives a non-mapping observation. */
  function LeafShape(o: Obs): seq<nat>
  {
    if o.NdArray? then o.nd.shape else []
  }

  /** `np.asarray(o)` for each observation. The element dtype is left as found: the stack
      built from these arrays is cast to float32 before it is returned. */
  function AsArrays(os: seq<Obs>): (r: Result<seq<Tensor>>)
    ensures r.Ok? <==> forall j | 0 <= j < |os| :: !os[j].Mapping?
    ensures r.Ok? ==>
      && |r.value| == |os| && AllData(r.value) == LeafData(os)
      && forall j | 0 <= j < |os| :: r.value[j].shape == LeafShape(os[j])
  {
    if os == [] then Ok([])
    else
      var head :- ToArray(os[0], if os[0].NdArray? then os[0].nd.dtype else Float64);
      var rest :- AsArrays(os[1..]);
      assert ([head] + rest)[1..] == rest;
      Ok([head] + rest)
  }

  /** `[d[uid] for uid in agents]`. */
  function Gather(d: AgentDict<Obs>, agents: seq<string>): (r: Result<seq<Obs>>)
    ensures r.Ok? <==> forall j | 0 <= j < |agents| :: agents[j] in DictKeys(d)
    ensures r.Ok? ==> |r.value| == |agents| && forall j | 0 <= j < |agents| :: Lookup(d, agents[j]) == Ok(r.value[j])
  {
    if agents == [] then Ok([])
    else
      var o :- Lookup(d, agents[0]);
      var rest :- Gather(d, agents[1..]);
      Ok([o] + rest)
  }

  /** The shared observation: every possible agent's observation, in `possible_agents` order,
      stacked and encoded as an array under the shared space (a `(num_envs, -1)` float32
      reshape). It needs every possible agent to be observed, with observations of one shape. */
  function SharedObservation(w: PettingZooWrapper, observations: AgentDict<Obs>): (r: Result<Tensor>)
    ensures r.Ok? <==>
      && Gather(observations, w.env.possibleAgents).Ok?
      && var os := Gather(observations, w.env.possibleAgents).value;
      && (forall j | 0 <= j < |os| :: !os[j].Mapping?)
      && |os| > 0 && (forall j | 0 <= j < |os| :: LeafShape(os[j]) == LeafShape(os[0]))
      && w.numEnvs > 0 && |LeafData(os)| % w.numEnvs == 0
    ensures r.Ok? ==>
      && HasRows(r.value, w.numEnvs) && r.value.dtype == Float32
      && r.value.data == LeafData(Gather(observations, w.env.possibleAgents).value)
  {
    var os :- Gather(observations, w.env.possibleAgents);
    var arrays :- AsArrays(os);
    var stacked :- Stack(arrays);
    Encode(NumPy, w.numEnvs, NdArray(stacked), w.sharedObservationSpace)
  }

  /** `{uid: shared for uid in possible_agents}`. */
  function SharedStatesMap(agents: seq<string>, shared: Tensor): (m: map<string, Tensor>)
    ensures m.Keys == set uid | uid in agents
    ensures forall uid | uid in m :: m[uid] == shared
  {
    map uid | uid in agents :: shared
  }

  /** What the environment's `step` returns, per agent. */
  datatype StepResponse = StepResponse(
    observations: AgentDict<Obs>, rewards: AgentDict<Obs>,
    terminated: AgentDict<Obs>, truncated: AgentDict<Obs>, infos: Info)

  datatype StepResult = StepResult(
    observations: AgentDict<Tensor>, rewards: AgentDict<Tensor>,
    terminated: AgentDict<Tensor>, truncated: AgentDict<Tensor>, infos: Info)

  /** Decodes each agent's action with that agent's own action space. */
  function DecodeActions(w: PettingZooWrapper, actions: AgentDict<Tensor>): (r: Result<AgentDict<Action>>)
    ensures r.Ok? <==> forall j | 0 <= j < |actions| :: Decode(actions[j].1, w.env.actionSpace(actions[j].0)).Ok?
    ensures r.Ok? ==> DictKeys(r.value) == DictKeys(actions) && forall j | 0 <= j < |actions| ::
      r.value[j].1 == Decode(actions[j].1, w.env.actionSpace(actions[j].0)).value
  {
    MapValues(actions, (uid, a) => Decode(a, w.env.actionSpace(uid)))
  }

  /** Encodes each agent's observation with that agent's own observation space. */
  function EncodeObservations(w: PettingZooWrapper, observations: AgentDict<Obs>): (r: Result<AgentDict<Tensor>>)
    ensures r.Ok? <==> forall j | 0 <= j < |observations| ::
      Encode(NumPy, w.numEnvs, observations[j].1, w.env.observationSpace(observations[j].0)).Ok?
    ensures r.Ok? ==> DictKeys(r.value) == DictKeys(observations) && forall j | 0 <= j < |observations| ::
      r.value[j].1 == Encode(NumPy, w.numEnvs, observations[j].1, w.env.observationSpace(observations[j].0)).value
  {
    MapValues(observations, (uid, o) => Encode(NumPy, w.numEnvs, o, w.env.observationSpace(uid)))
  }

  /** `{uid: np.array(v, dtype=d).reshape(num_envs, -1) for uid, v in d.items()}`. */
  function ReshapeAll(w: PettingZooWrapper, d: AgentDict<Obs>, dtype: DType): (r: Result<AgentDict<Tensor>>)
    ensures r.Ok? <==> forall j | 0 <= j < |d| :: ViewAs(d[j].1, dtype, w.numEnvs).Ok?
    ensures r.Ok? ==> DictKeys(r.value) == DictKeys(d) && forall j | 0 <= j < |d| ::
      && HasRows(r.value[j].1, w.numEnvs) && r.value[j].1.dtype == dtype
      && r.value[j].1.data == LeafElements(d[j].1)
  {
    MapValues(d, (uid, v) => ViewAs(v, dtype, w.numEnvs))
  }

  /** `step(actions)`: decodes the actions, steps the environment (`env`), records the shared
      observation under `infos["shared_states"]` for every possible agent, and converts the
      per-agent observations, rewards (float32), terminations and truncations (int8), each
      keeping the keys of the environment's answer. */
  method Step(w: PettingZooWrapper, actions: AgentDict<Tensor>, env: AgentDict<Action> -> StepResponse)
    returns (r: Result<StepResult>)
    ensures r.Ok? <==>
      && DecodeActions(w, actions).Ok?
      && var resp := env(DecodeActions(w, actions).value);
      && SharedObservation(w, resp.observations).Ok?
      && EncodeObservations(w, resp.observations).Ok?
      && ReshapeAll(w, resp.rewards, Float32).Ok?
      && ReshapeAll(w, resp.terminated, Int8).Ok?
      && ReshapeAll(w, resp.truncated, Int8).Ok?
    ensures r.Ok? ==>
      var resp := env(DecodeActions(w, actions).value);
      var shared := SharedObservation(w, resp.observations).value;
      && r.value.infos == resp.infos["shared_states" := SharedStates(SharedStatesMap(w.env.possibleAgents, shared))]
      && r.value.observations == EncodeObservations(w, resp.observations).value
      && r.value.rewards == ReshapeAll(w, resp.rewards, Float32).value
      && r.value.terminated == ReshapeAll(w, resp.terminated, Int8).value
      && r.value.truncated == ReshapeAll(w, resp.truncated, Int8).value
  {
    var decoded :- DecodeActions(w, actions);
    var resp := env(decoded);
    var shared :- SharedObservation(w, resp.observations);
    var infos := resp.infos;
    infos := infos["shared_states" := SharedStates(SharedStatesMap(w.env.possibleAgents, shared))];
    var observations :- EncodeObservations(w, resp.observations);
    var rewards :- ReshapeAll(w, resp.rewards, Float32);
    var terminated :- ReshapeAll(w, resp.terminated, Int8);
    var truncated :- ReshapeAll(w, resp.truncated, Int8);
    r := Ok(StepResult(observations, rewards, terminated, truncated, infos));
  }

  /** What the environment's `reset` returns: observations alone (a bare mapping), or
      observations with infos. */
  datatype ResetOutput =
    | BareObservations(observations: AgentDict<Obs>)
    | WithInfos(observations: AgentDict<Obs>, infos: Info)

  /** `reset()`: as `step` for the observations and `shared_states`; when the environment
      returned only observations, each possible agent starts with an empty info dict. */
  method Reset(w: PettingZooWrapper, out: ResetOutput) returns (r: Result<(AgentDict<Tensor>, Info)>)
    ensures r.Ok? <==> SharedObservation(w, out.observations).Ok? && EncodeObservations(w, out.observations).Ok?
    ensures r.Ok? ==>
      var shared := SharedStates(SharedStatesMap(w.env.possibleAgents, SharedObservation(w, out.observations).value));
      && r.value.0 == EncodeObservations(w, out.observations).value
      && (out.WithInfos? ==> r.value.1 == out.infos["shared_states" := shared])
      && (out.BareObservations? ==>
            r.value.1 == (map uid | uid in w.env.possibleAgents :: Record(map[]))["shared_states" := shared])
  {
    var infos: Info;
    if out.BareObservations? {
      infos := map uid | uid in w.env.possibleAgents :: Record(map[]);
    } else {
      infos := out.infos;
    }
    var shared :- SharedObservation(w, out.observations);
    infos := infos["shared_states" := SharedStates(SharedStatesMap(w.env.possibleAgents, shared))];
    var observations :- EncodeObservations(w, out.observations);
    r := Ok((observations, infos));
  }
}

# skrl environment adapters, modelled in Dafny

This project models the environment-adaptation layer of skrl. That layer sits between a
reinforcement-learning agent and a simulator. It wraps a backend environment, such as an OpenAI
Gym environment, a DeepMind `dm_env` environment, an Isaac Gym preview 2 or 3 `VecTask`, an
Omniverse Isaac Gym task or a PettingZoo parallel environment, behind one interface. Observations
come out as `(num_envs, -1)` tensors, and actions go in as tensors.

The model covers three parts.

- **The space/spec codec** (`Codec`, `DeepMind`, `Keys`, `Spaces`, `Tensors`).
  - A space is `Discrete`, `Box`, `Dict` or an unsupported kind.
  - Observations are encoded into a tensor with `num_envs` rows. A `Dict` concatenates its
    fields' encodings column-wise, in sorted key order.
  - Action tensors are decoded back into the backend's form.
  - DeepMind specs are converted to Gym spaces.
  - A tensor is an abstract shape, a flat element sequence and a dtype tag. Casts change only
    the tag.
  - One encoder serves both the torch Gym adapter and the numpy PettingZoo adapter. It is
    parameterised by `ArrayLib`, which fixes the integer dtype (`int64` for torch, `int32`
    for numpy) and whether a Box observation is reshaped by its own `reshape` method (numpy),
    which a Python float does not have.
  - A Python `bool` observation is an int (0 or 1), since `bool` subclasses `int`.
- **The one-shot-reset adapters** (`IsaacGym`, `Omniverse`).
  - These are classes with the source's `_reset_once` flag and its cached observation buffer or
    dict.
  - The backend is an oracle class, `VecTask`. It counts its `reset` and `step` calls and
    answers with fixed functions of the call index.
  - The proofs state that the native reset runs at most once. They also state that a later reset
    returns the most recent step observation, and that rewards and dones become single columns.
- **Dispatch and the multi-agent adapter** (`Dispatch`, `PettingZoo`).
  - `wrap_env` selects an adapter by name, or by capability in auto mode.
  - The PettingZoo adapter covers:
    - the shared observation space;
    - the per-agent space maps;
    - the shaping of `step` and `reset` results, including `infos["shared_states"]`.
  - A Python dict keyed by agent is a sequence of `(key, value)` pairs in insertion order. This
    keeps the dict's order and gives the comprehension's first-error behaviour.

Python exceptions (`ValueError`, `KeyError`, a failing `view`) are modelled as `Err` values of
`Common.Result`. Each exception is named by a constructor of `Common.Error`.

## Model

| member | source | states |
|---|---|---|
| Dispatch.NumEnvs | skrl/envs/torch/wrappers.py:63 | `num_envs` is the backend's own value when it has one, otherwise 1 |
| Dispatch.StateSpace | skrl/envs/torch/wrappers.py:72 | `state_space` is the backend's own when present, otherwise its `observation_space` |
| Dispatch.AutoKind | skrl/envs/torch/wrappers.py:428-439 | auto mode picks Gym iff the env is a gym Env/Wrapper; DeepMind iff not Gym and `dm_env` Environment is a direct base; preview 2 iff neither and `VecTask` is a direct base; preview 3 iff none of these |
| Dispatch.WrapEnv | skrl/envs/torch/wrappers.py:428-453 | `"auto"` gives the auto choice and never fails; the call fails with an unknown-wrapper error exactly when the name is not one of the five accepted strings |
| Dispatch.WrapEnvByName | skrl/envs/torch/wrappers.py:440-451 | each explicit name selects its own adapter, and no other explicit name selects it |
| IsaacGym.IsaacGymPreview2Wrapper.constructor | skrl/envs/torch/wrappers.py:96-97 | a new wrapper has `_reset_once` set and no cached observation |
| IsaacGym.IsaacGymPreview2Wrapper.Reset | skrl/envs/torch/wrappers.py:117-120 | the first reset calls the backend's reset and caches its answer; later resets return the cache without calling the backend; `_reset_once` is false afterwards |
| IsaacGym.IsaacGymPreview2Wrapper.Step | skrl/envs/torch/wrappers.py:108-109 | step calls the backend's step once, overwrites the cache with its observation, and returns reward and reset flags as single columns in the same element order |
| IsaacGym.IsaacGymPreview2Wrapper.StepThenReset | skrl/envs/torch/wrappers.py:108-120 | after the first reset, a reset that follows a step returns that step's observation and does not call the backend's reset |
| IsaacGym.IsaacGymPreview2Wrapper.Drive | skrl/envs/torch/wrappers.py:108-120 | over any sequence of resets and steps, the backend's reset runs once if the wrapper had not reset before and the sequence has a reset, otherwise not at all (at most once over the wrapper's life); the backend's step runs once per step |
| IsaacGym.IsaacGymPreview3Wrapper.constructor | skrl/envs/torch/wrappers.py:137-138 | a new wrapper has `_reset_once` set and no cached observation dict |
| IsaacGym.IsaacGymPreview3Wrapper.Reset | skrl/envs/torch/wrappers.py:158-161 | the first reset caches the backend's reset dict, later ones keep the cache; the result is the cache's `"obs"` entry, or a KeyError when it has none |
| IsaacGym.IsaacGymPreview3Wrapper.Step | skrl/envs/torch/wrappers.py:149-150 | step caches the backend's whole observation dict (even when it lacks `"obs"`), returns its `"obs"` entry and reward/reset as single columns, or a KeyError when `"obs"` is missing |
| IsaacGym.IsaacGymPreview3Wrapper.StepThenReset | skrl/envs/torch/wrappers.py:149-161 | after the first reset, a reset that follows a step returns that step's `"obs"` and does not call the backend's reset |
| IsaacGym.IsaacGymPreview3Wrapper.ResetTwice | skrl/envs/torch/wrappers.py:158-161 | two resets in a row return the same result; the backend's reset runs during them only if the wrapper had not reset before, and exactly once over the wrapper's life |
| IsaacGym.Entry | skrl/envs/torch/wrappers.py:161 | `d["obs"]` is the entry when the key is present and a KeyError naming the key otherwise |
| Omniverse.OmniverseIsaacGymWrapper.constructor | skrl/envs/torch/wrappers/omniverse_isaacgym_envs.py:17-18 | a new wrapper has `_reset_once` set and no cached observation dict |
| Omniverse.OmniverseIsaacGymWrapper.Reset | skrl/envs/torch/wrappers/omniverse_isaacgym_envs.py:49-52 | the backend's reset runs only on the first call and `_reset_once` stays false; the result is the cached `"obs"` entry with an empty info dict, or a KeyError when it has none |
| Omniverse.OmniverseIsaacGymWrapper.Step | skrl/envs/torch/wrappers/omniverse_isaacgym_envs.py:39-41 | step replaces the cached dict and returns its `"obs"`, reward and terminated as single columns, and truncated as a single column of zeros shaped like terminated, or a KeyError when `"obs"` is missing |
| Omniverse.OmniverseIsaacGymWrapper.StepThenReset | skrl/envs/torch/wrappers/omniverse_isaacgym_envs.py:39-52 | after the first reset, a reset that follows a step returns that step's observation with an empty info dict and does not call the backend's reset |
| Omniverse.OmniverseIsaacGymWrapper.ResetTwice | skrl/envs/torch/wrappers/omniverse_isaacgym_envs.py:49-52 | two resets in a row return the same result; the backend's reset runs during them only if the wrapper had not reset before, and exactly once over the wrapper's life |
| Omniverse.TruncatedIsZeroColumn | skrl/envs/torch/wrappers/omniverse_isaacgym_envs.py:40-41 | `zeros_like(terminated).view(-1, 1)` is one column with a row per element of `terminated`, of its dtype, all zeros |
| Codec.ToArray | skrl/envs/torch/wrappers.py:192-198 | building an array from a non-mapping observation keeps its elements in order and sets the requested dtype; a mapping cannot become an array |
| Codec.Subscript | skrl/envs/torch/wrappers.py:200 | `observation[k]` is the entry under `k`, and fails for a missing key or a non-mapping observation |
| Codec.ViewAs | skrl/envs/torch/wrappers.py:196-198 | `tensor(obs, dtype).view(num_envs, -1)` succeeds iff the observation is not a mapping and `num_envs` is positive and divides its element count; the result has `num_envs` rows, the same elements in order and the given dtype |
| Codec.ReshapeMethod | skrl/envs/jax/wrappers/pettingzoo_envs.py:82 | `observation.reshape(num_envs, -1).astype(float32)` raises for a Python float or a dict, which have no `reshape`, and otherwise is the float32 view of the observation |
| Codec.Encode | skrl/envs/torch/wrappers.py:191-205 | the result always has `num_envs` rows; a bare int, an ndarray, or an observation under a Discrete or Box space keeps its elements in order with dtype int64/int32 for ints and float32 otherwise, and succeeds iff `num_envs` divides its size; numpy's Box branch calls the observation's own `reshape`, so a Python float there raises; an unsupported space raises |
| Codec.EncodeDict | skrl/envs/torch/wrappers.py:199-201 | the Dict branch's result, when there is one, has `num_envs` rows |
| Codec.ConcatParts | skrl/envs/torch/wrappers.py:200-201 | `cat(parts, dim=-1).view(num_envs, -1)` passes on the error of a part that failed to encode, raises on an empty list, and otherwise succeeds iff `num_envs` is positive; the view then is the concatenation itself, with `num_envs` rows |
| Codec.EncodeFields | skrl/envs/torch/wrappers.py:200-201 | the list comprehension yields one part per key, each with `num_envs` rows |
| Codec.EncodeFieldsAt | skrl/envs/torch/wrappers.py:200-201 | the j-th part of the comprehension is the encoding of `observation[keys[j]]` under `space[keys[j]]` |
| Codec.EncodeFieldsOk | skrl/envs/torch/wrappers.py:200-201 | the comprehension succeeds iff the encoding of every key's entry succeeds |
| Codec.EncodeDictOk | skrl/envs/torch/wrappers.py:199-201 | a Dict observation encodes iff the space has at least one field, `num_envs` is positive, and every field is present in the observation and encodes under its own space |
| Codec.EncodeDictRows | skrl/envs/torch/wrappers.py:199-201 | a Dict observation is encoded by visiting the space's keys in sorted order (a permutation of the keys); each part encodes that key's entry under that key's space; row i of the result is row i of every part, concatenated in that order |
| Codec.EncodeFieldsSameMapping | skrl/envs/torch/wrappers.py:200-201 | the parts depend only on the key-to-space mapping, not on the order the space lists its keys |
| Codec.EncodeDictIgnoresFieldOrder | skrl/envs/torch/wrappers.py:199-201 | two Dict spaces with the same keys and subspaces, listed in different orders, encode every observation identically |
| Codec.DictFieldOrderExample | skrl/envs/torch/wrappers.py:199-201 | a Dict space declaring key `kb` before a smaller key `ka` still puts `ka`'s elements first in the single row |
| Codec.SortTwoKeys | skrl/envs/torch/wrappers.py:201 | `sorted` orders two distinct keys ascending whatever their input order |
| Codec.TwoFields | skrl/envs/torch/wrappers.py:200-201 | the comprehension over the sorted keys of a two-field Dict yields the two fields' rows in key order |
| Codec.ConcatTwo | skrl/envs/torch/wrappers.py:200-201 | concatenating two one-row float32 parts along the last axis gives one row holding the first part's elements, then the second's |
| Codec.Decode | skrl/envs/torch/wrappers.py:220-225 | a Discrete action is the tensor's single element (iff it has exactly one); a Box action has the space's shape and dtype and the tensor's elements in order (iff the sizes agree); a Dict or unsupported space raises |
| Codec.DecodeEncodeBox | skrl/envs/torch/wrappers.py:220-223 | decoding the encoding of a Box-shaped array under its Box space gives back that array |
| Codec.DecodeEncodeDiscrete | skrl/envs/torch/wrappers.py:191-221 | a single env's int observation always encodes, and decoding it under a Discrete space gives back the int |
| Codec.GymStep | skrl/envs/torch/wrappers.py:227-240 | the Gym step decodes the action by the action space (its error is the step's error), hands it to the environment, encodes the observation, turns reward into `num_envs` float32 rows and done into `num_envs` bool rows, each keeping its elements in order, and passes the info on unchanged; it succeeds iff the action decodes, the observation encodes, and reward and done are non-mapping values whose sizes `num_envs` divides |
| Keys.SortKeysSorted | skrl/envs/torch/wrappers.py:201 | `sorted(space.keys())` is in ascending string order |
| Keys.SortKeys | skrl/envs/torch/wrappers.py:201 | `sorted(space.keys())` is a permutation of the keys |
| Keys.SortKeysAreKeys | skrl/envs/torch/wrappers.py:201 | every key `sorted` returns is one of the input keys |
| Keys.SortKeysIdempotent | skrl/envs/torch/wrappers.py:201 | sorting a sorted key list changes nothing |
| Keys.SortKeysPermutation | skrl/envs/torch/wrappers.py:201 | two key lists that are permutations of each other sort to the same list |
| Keys.InsertSorted | skrl/envs/torch/wrappers.py:201 | inserting a key into a sorted list keeps it sorted |
| Keys.SortedUnique | skrl/envs/torch/wrappers.py:201 | a sorted list is determined by its multiset of keys |
| DeepMind.SpecToSpace | skrl/envs/torch/wrappers.py:305-320 | DiscreteArray becomes Discrete(num_values); BoundedArray a Box with the spec's minimum, maximum, shape and dtype; Array a Box of the spec's shape with all-minus-infinity low and all-infinity high bounds; OrderedDict a Dict whose fields are its keys in sorted order (`gym.spaces.Dict` sorts the plain dict it is given), each field's space the conversion of that key's first entry; anything else raises; the conversion succeeds iff every nested spec is supported |
| DeepMind.EntriesToFields | skrl/envs/torch/wrappers.py:317-318 | the dict comprehension keeps every key in order and converts each spec, and fails iff some spec is unsupported |
| Spaces.SortedFields | skrl/envs/torch/wrappers.py:318 | `gym.spaces.Dict` of a plain dict lists its keys in sorted order, each with the space the dict gives it |
| DeepMind.DmEncode | skrl/envs/torch/wrappers.py:335-343 | the DeepMind encoding has `num_envs` rows; a DiscreteArray, BoundedArray or Array spec gives the float32 view of the observation; an unsupported spec raises |
| DeepMind.DmEncodeEntries | skrl/envs/torch/wrappers.py:339-341 | the OrderedDict comprehension yields one part per sorted key, each with `num_envs` rows |
| DeepMind.DmEncodeMatchesGym | skrl/envs/torch/wrappers.py:305-343 | for a supported spec and an observation shaped like it, encoding by the spec equals the Gym encoding under the converted space |
| DeepMind.DmEncodeDictMatchesGym | skrl/envs/torch/wrappers.py:317-341 | for a supported OrderedDict spec and an observation shaped like it, the DeepMind encoding equals the Gym Dict encoding under the converted fields |
| DeepMind.ConvertedFields | skrl/envs/torch/wrappers.py:317-318 | the converted Dict has the same sorted keys as the OrderedDict, and each key's field is the conversion of that key's entry |
| DeepMind.DmEncodeEntriesMatch | skrl/envs/torch/wrappers.py:339-341 | the OrderedDict comprehension over sorted keys gives the same parts as the Gym Dict comprehension under the converted fields |
| DeepMind.DmDecode | skrl/envs/torch/wrappers.py:358-363 | a DiscreteArray action is the single element as a 0-d array of the spec's dtype; an Array or BoundedArray action has the spec's shape and dtype and the tensor's elements in order; an OrderedDict or other spec raises |
| DeepMind.DmDecodeMatchesGym | skrl/envs/torch/wrappers.py:358-361 | DeepMind and Gym decoding under the converted space agree: same success, and the same element for a DiscreteArray; identical results for an Array or BoundedArray |
| DeepMind.RewardRows | skrl/envs/torch/wrappers.py:377-383 | a missing reward becomes a single float32 zero, which only one environment can view as rows; a present reward is viewed as `num_envs` float32 rows |
| DeepMind.DoneRows | skrl/envs/torch/wrappers.py:378-384 | the `last()` flag is one bool element, 1 iff the step is the last, so viewing it as rows succeeds iff there is exactly one environment |
| DeepMind.DmStep | skrl/envs/torch/wrappers.py:374-385 | the step decodes the action, encodes the time step's observation, turns a missing reward into 0 and the reward into one float32 row, the done flag into a one-element bool tensor that is 1 iff the step is the last, and returns an empty info dict; it succeeds iff the action decodes and the observation and reward can be shaped |
| PettingZoo.SharedObservationSpace | skrl/envs/jax/wrappers/pettingzoo_envs.py:24-30 | the shared space is a Box whose shape is the number of possible agents followed by the first agent's shape, of that agent's dtype, whose low and high bounds are that agent's bounds repeated once per possible agent; it fails when there is no observation space, when the first is not a Box, or when there are no possible agents |
| PettingZoo.Wrap | skrl/envs/jax/wrappers/pettingzoo_envs.py:21-22 | wrapping keeps the backend and stores the shared observation space, and fails iff that space cannot be computed |
| PettingZoo.NumAgents | skrl/envs/jax/wrappers/pettingzoo_envs.py:36 | `num_agents` is the number of possible agents |
| PettingZoo.ObservationSpaces | skrl/envs/jax/wrappers/pettingzoo_envs.py:50 | `observation_spaces` is keyed by exactly the possible agents, each mapped to the backend's `observation_space(uid)` |
| PettingZoo.ActionSpaces | skrl/envs/jax/wrappers/pettingzoo_envs.py:56 | `action_spaces` is keyed by exactly the possible agents, each mapped to the backend's `action_space(uid)` |
| PettingZoo.SharedObservationSpaces | skrl/envs/jax/wrappers/pettingzoo_envs.py:62 | `shared_observation_spaces` is keyed by exactly the possible agents, each mapped to the one shared space |
| PettingZoo.DistinctCard | skrl/envs/jax/wrappers/pettingzoo_envs.py:36 | a list of pairwise different names has as many distinct names as entries |
| PettingZoo.SpaceMapsHaveNumAgentsEntries | skrl/envs/jax/wrappers/pettingzoo_envs.py:36-62 | with distinct agent names each of the three space maps has `num_agents` entries |
| PettingZoo.Lookup | skrl/envs/jax/wrappers/pettingzoo_envs.py:125 | `observations[uid]` is the value stored under `uid`, or a KeyError |
| PettingZoo.MapValues | skrl/envs/jax/wrappers/pettingzoo_envs.py:121 | a dict comprehension over `items()` keeps the keys in order and converts every value, and otherwise raises the first failing entry's error |
| PettingZoo.AsArrays | skrl/envs/jax/wrappers/pettingzoo_envs.py:125 | each gathered observation becomes an array of its own shape, and their elements in order make up the whole; a mapping fails, as the float32 conversion of the stack (line 78, reached from line 126) fails for a dict element |
| PettingZoo.Gather | skrl/envs/jax/wrappers/pettingzoo_envs.py:125 | `[observations[uid] for uid in possible_agents]` has one entry per possible agent, in that order, and fails iff some agent is missing |
| PettingZoo.SharedObservation | skrl/envs/jax/wrappers/pettingzoo_envs.py:125-126 | the shared observation stacks the agents' observations in `possible_agents` order and reshapes them into `num_envs` float32 rows holding those elements in that order; it succeeds iff every agent is present, no observation is a mapping, there is at least one agent, all shapes agree and `num_envs` divides the size |
| PettingZoo.SharedStatesMap | skrl/envs/jax/wrappers/pettingzoo_envs.py:127 | `{uid: shared for uid in possible_agents}` is keyed by exactly the possible agents, all mapped to the same stack |
| PettingZoo.DecodeActions | skrl/envs/jax/wrappers/pettingzoo_envs.py:121 | every agent's action is decoded with that agent's own action space; the keys are kept in order; it fails iff some decoding fails |
| PettingZoo.EncodeObservations | skrl/envs/jax/wrappers/pettingzoo_envs.py:130 | every agent's observation is encoded with that agent's own observation space; the keys are kept in order; it fails iff some encoding fails |
| PettingZoo.ReshapeAll | skrl/envs/jax/wrappers/pettingzoo_envs.py:131-133 | rewards, terminated and truncated are each reshaped to `num_envs` rows of the given dtype with their elements in order, under the same keys |
| PettingZoo.Step | skrl/envs/jax/wrappers/pettingzoo_envs.py:121-134 | step passes the decoded actions to the backend; its observation, reward, terminated and truncated maps have the backend's keys; its infos are the backend's with `shared_states` set to the shared stack under every possible agent; it succeeds iff every conversion does |
| PettingZoo.Reset | skrl/envs/jax/wrappers/pettingzoo_envs.py:142-156 | reset encodes the backend's observations; when the backend returns only observations, infos start as an empty dict per possible agent; either way `shared_states` is added with the shared stack under every possible agent |
| PettingZoo.AsWrittenRejectsInts | skrl/envs/jax/wrappers/pettingzoo_envs.py:75-76 | as written, a bare int observation never encodes, whatever the space, while the reshape gives one int32 row holding it |
| PettingZoo.EncodeAsWritten | skrl/envs/jax/wrappers/pettingzoo_envs.py:64-88 | as written, a bare int observation always raises (`view` reads `num_envs` as a dtype), a Dict observation never encodes, and on every other observation and space the encoder agrees with the corrected `Codec.Encode` for numpy |
| PettingZoo.CorrectedEncodesDict | skrl/envs/jax/wrappers/pettingzoo_envs.py:83-86 | with the reshape, a one-field Dict observation does encode, into one float32 row |

## Left out

- Device selection, `cpu()` moves and `jax.device_get` are not modelled. The device does not change shapes or values.
- Rendering, `render`/`close` passthroughs and Omniverse `run` are not modelled. They hand work to OpenCV, the backend or a trainer thread.
- The informational `print` calls are not modelled.
- Floating-point values are not modelled. Elements are abstract numbers, and a dtype cast only changes the tensor's dtype tag, so rounding and overflow of a cast are not modelled.
- The Gym adapter's `reset` (wrappers.py:243-250) and the DeepMind adapter's `reset` (wrappers.py:387-394) are not modelled separately. They only apply `Codec.Encode` or `DeepMind.DmEncode` to the backend's observation.
- The DeepMind adapter's constructor, which converts the two specs once, and its `state_space` alias (wrappers.py:275-292) are not modelled. They only store `DeepMind.SpecToSpace` results.
- The multi-agent base class that supplies the PettingZoo adapter's `num_envs` (skrl/envs/jax/wrappers/base.py) is not part of this model. `num_envs` is a field of the wrapper value.
- The PettingZoo `agents` property is not modelled. It passes the backend's attribute through.
- The validation of bounds and the broadcasting of scalar bounds by the `gym.spaces.Box` constructor are not modelled. An Array spec's unbounded Box has bound tensors of the spec's shape.
- The dtype of `np.stack` is not modelled. The stacked shared observation is cast to float32 right after, so only that dtype is modelled.
- Numpy scalars are one `NpScalar` observation kind. They are not distinguished by width.
- `actions.item()` on a tensor with more than one element raises in torch. `Codec.Decode` models that as an error, not as the exact exception.
- The aliasing of the backend's `infos` dict, which `step` and `reset` mutate in place, is not modelled. The model returns the updated dict as a new value.
- The Isaac Gym and Omniverse simulators are not modelled. They are oracles whose answers are fixed functions of the call index.

## Findings

| source | as written | input that shows it | evidently intended | confidence | as-written member | corrected member |
|---|---|---|---|---|---|---|
| skrl/envs/jax/wrappers/pettingzoo_envs.py:75-86 | `ndarray.view(self.num_envs, -1)` is numpy's dtype reinterpretation, not a reshape, so it raises for every bare int observation and every Dict observation | an int observation `3` with `num_envs == 1`, or any Dict observation (PettingZoo.AsWrittenRejectsInts, PettingZoo.EncodeAsWritten; PettingZoo.CorrectedEncodesDict shows the reshape succeeding) | `reshape(self.num_envs, -1)`, as the ndarray, Discrete and Box branches do | high (from numpy's `ndarray.view` signature; not executed) | PettingZoo.EncodeAsWritten | Codec.Encode |

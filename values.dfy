/** The Python values exchanged with a backend: observations, decoded actions and info dicts. */
module Values {
  import opened Tensors

  /** A native observation. A Python `bool` is a `PyInt` (0 or 1): `bool` subclasses `int`,
      so `isinstance(observation, int)` holds for it. `NpScalar` is a numpy scalar, which has
      array methods such as `reshape`; `PyFloat` is a Python float, which has none. */
  datatype Obs =
    | PyInt(i: int)
    | PyFloat(f: Num)
    | NpScalar(x: Num)
    | NdArray(nd: Tensor)
    | Mapping(entries: map<string, Obs>)

  /** A decoded action: `tensor.item()` or an array in the space's shape and dtype. */
  datatype Action = ScalarAction(x: Num) | ArrayAction(tensor: Tensor)

  /** Values of an info dict. `SharedStates` is the entry the multi-agent wrapper adds. */
  datatype InfoValue =
    | Opaque(desc: string)
    | Record(entries: map<string, InfoValue>)
    | SharedStates(states: map<string, Tensor>)

  type Info = map<string, InfoValue>

  /** What a single-agent wrapper's `step` returns: observation, reward, done flag and info. */
  datatype Transition = Transition(observation: Tensor, reward: Tensor, done: Tensor, info: Info)
}

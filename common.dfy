/** Results and the errors the adaptation layer can raise. Each error names the
    Python exception the source lets escape at that point. */
module Common {

  datatype Option<+T> = None | Some(value: T)

  /** Either a value or the exception that the Python code would raise. */
  datatype Result<+T> = Ok(value: T) | Err(error: Error) {
    predicate IsFailure() { Err? }

    function PropagateFailure<U>(): Result<U>
      requires Err?
    {
      Err(error)
    }

    function Extract(): T
      requires Ok?
    {
      value
    }
  }

  datatype Error =
    | UnsupportedSpace(kind: string)   // ValueError: observation/action space type not supported
    | UnsupportedSpec(kind: string)    // ValueError: DeepMind spec type not supported
    | UnknownWrapper(name: string)     // ValueError: unknown wrapper type
    | ShapeMismatch                    // view / reshape / item on an incompatible element count
    | MissingKey(key: string)          // KeyError on a dict lookup
    | NotSubscriptable                 // indexing a non-mapping observation by a field name
    | NotNumeric                       // building a tensor from a mapping (TypeError)
    | EmptyConcat                      // cat / concatenate / stack of an empty list
    | NoObservationSpaces              // next(iter(...)) on an empty dict (StopIteration)
    | NoBoxBounds                      // reading shape/low/high of a space that is not a Box
    | InvalidViewDType                 // numpy `ndarray.view(num_envs, -1)`: num_envs is not a dtype
    | NoReshape                        // AttributeError: a Python float or dict has no `reshape`
}

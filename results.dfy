/**
 * The tagged result union and its helpers (backend/src/utils.ts; the client's
 * frontend/src/utils.ts holds the same definitions and is modelled by the same
 * members).
 *
 * In the source a result is an object `{error, value}` in which exactly one of
 * the two fields is null. Here it is a datatype with one constructor per arm;
 * `Fields` gives back the object view. JavaScript exceptions become an
 * explicit `Outcome`: a call either returns a value or throws.
 */
module Results {
  import opened Errors

  /** A value that may be null or undefined. */
  datatype Option<+T> = None | Some(value: T)

  /** `{error: null, value}` is `Ok(value)`; `{error, value: null}` is `Err(error)`. */
  datatype Result<+T, +E> = Ok(value: T) | Err(error: E)

  /** How a JavaScript call (or an awaited promise) completes. */
  datatype Outcome<+T, +E> = Returned(value: T) | Threw(thrown: E)

  /** The result object as the source lays it out: both fields, one of them null. */
  datatype ResultObject<+T, +E> = ResultObject(error: Option<E>, value: Option<T>)

  /** The object view of a result: exactly one of its two fields is populated. */
  function Fields<T, E>(r: Result<T, E>): (o: ResultObject<T, E>)
    ensures o.error.None? <==> o.value.Some?
    ensures r.Ok? ==> o == ResultObject(None, Some(r.value))
    ensures r.Err? ==> o == ResultObject(Some(r.error), None)
  {
    match r
    case Ok(v) => ResultObject(None, Some(v))
    case Err(e) => ResultObject(Some(e), None)
  }

  /** Reads a result object back; undoes Fields. */
  function FromFields<T, E>(o: ResultObject<T, E>): (r: Option<Result<T, E>>)
    ensures r.Some? <==> (o.error.None? <==> o.value.Some?)
  {
    match o
    case ResultObject(None, Some(v)) => Some(Ok(v))
    case ResultObject(Some(e), None) => Some(Err(e))
    case _ => None
  }

  /** `ok(v)` and `err(e)` build the two shapes of the union, and nothing is lost on the way. */
  lemma FieldsRoundTrip<T, E>(r: Result<T, E>)
    ensures FromFields(Fields(r)) == Some(r)
  {
  }

  /**
   * `attempt(fun)` and `attemptAsync(fun)`: a normal return becomes the success
   * arm, a throw (or a rejected promise) becomes the failure arm carrying what
   * was thrown.
   */
  function Attempt<T, E>(call: Outcome<T, E>): (r: Result<T, E>)
    ensures r.Ok? <==> call.Returned?
    ensures call.Returned? ==> r.value == call.value
    ensures call.Threw? ==> r.error == call.thrown
  {
    match call
    case Returned(v) => Ok(v)
    case Threw(e) => Err(e)
  }

  const NullValueMessage := "Value is null or undefined"

  /** `nonNull(x)`: the identity on a present value, a throw on null or undefined. */
  function NonNull<T>(x: Option<T>): (r: Outcome<T, Error>)
    ensures x.Some? ==> r == Returned(x.value)
    ensures x.None? ==> r == Threw(Error(NullValueMessage))
  {
    match x
    case Some(v) => Returned(v)
    case None => Threw(Error(NullValueMessage))
  }

  /** Wrapping nonNull in attempt turns a missing value into the failure arm. */
  lemma AttemptNonNull<T>(x: Option<T>)
    ensures Attempt(NonNull(x)) == if x.Some? then Ok(x.value) else Err(Error(NullValueMessage))
  {
  }
}

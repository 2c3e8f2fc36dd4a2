/** The `useApi` hook (app/api/hooks/useApi.ts): three state cells
    `data`, `loading` and `error`, driven by `fetchData`. The awaited
    `fetchFunction()` is a parameter of each fetch: its outcome, a value or
    whatever it threw. */
module UseApi {
  import opened Wrappers
  import opened JsRuntime

  /** The `(data, loading, error)` triple; `None` is `null`. */
  datatype FetchState<T> = FetchState(data: Option<T>, loading: bool, error: Option<JsError>)

  /** `useState(null)`, `useState(initialFetch)`, `useState(null)`. */
  function InitialState<T>(initialFetch: bool): (s: FetchState<T>)
    ensures s.data.None? && s.error.None?
    ensures s.loading <==> initialFetch
  {
    FetchState(None, initialFetch, None)
  }

  /** `setLoading(true)`: the previous data and error stay as they are. */
  function Started<T>(s: FetchState<T>): (r: FetchState<T>)
    ensures r.loading
    ensures r.data == s.data && r.error == s.error
  {
    s.(loading := true)
  }

  /** The error `fetchData` stores and rethrows for a thrown value. */
  function Rethrown<T>(outcome: Result<T, Thrown>): (e: Option<JsError>)
    ensures e.None? <==> outcome.Success?
    ensures outcome.Failure? && outcome.error.ErrorInstance? ==> e == Some(outcome.error.err)
    ensures outcome.Failure? && outcome.error.NonError? ==> e.value.message == UnknownErrorMessage
  {
    if outcome.Success? then None else Some(Normalize(outcome.error))
  }

  /** The state once the awaited call has settled: on success the value and
      no error, on failure the old data and the normalised error; not
      loading either way (the `finally`). */
  function Settled<T>(s: FetchState<T>, outcome: Result<T, Thrown>): (r: FetchState<T>)
    ensures !r.loading
    ensures r.error == Rethrown(outcome)
    ensures outcome.Success? ==> r.data == Some(outcome.value)
    ensures outcome.Failure? ==> r.data == s.data
  {
    match outcome
    case Success(v) => FetchState(Some(v), false, None)
    case Failure(t) => FetchState(s.data, false, Some(Normalize(t)))
  }

  /** What `fetchData()` resolves to (`Success`) or rejects with (`Failure`). */
  function Returned<T>(outcome: Result<T, Thrown>): (r: Result<T, JsError>)
    ensures r.Success? <==> outcome.Success?
    ensures outcome.Success? ==> r.value == outcome.value
    ensures outcome.Failure? ==> Some(r.error) == Rethrown(outcome)
  {
    match outcome
    case Success(v) => Success(v)
    case Failure(t) => Failure(Normalize(t))
  }

  /** The error the caller receives is the very error left in the state. */
  lemma RethrowMatchesState<T>(s: FetchState<T>, outcome: Result<T, Thrown>)
    ensures Returned(outcome).Failure? ==> Settled(Started(s), outcome).error == Some(Returned(outcome).error)
    ensures Returned(outcome).Success? ==> Settled(Started(s), outcome).data == Some(Returned(outcome).value)
  {
  }

  /** The state after a fetch depends on the earlier state only through its
      data, and only when the fetch fails: an earlier error is always replaced. */
  lemma FetchForgetsEarlierError<T>(s1: FetchState<T>, s2: FetchState<T>, outcome: Result<T, Thrown>)
    requires s1.data == s2.data || outcome.Success?
    ensures Settled(Started(s1), outcome) == Settled(Started(s2), outcome)
  {
  }

  /** A failed fetch after a successful one keeps the earlier value on show
      to a reader of `data`, now together with an error. */
  lemma StaleDataSurvivesFailure<T>(s: FetchState<T>, v: T, t: Thrown)
    ensures var after := Settled(Started(Settled(Started(s), Success(v))), Failure(t));
      after.data == Some(v) && after.error == Some(Normalize(t)) && !after.loading
  {
  }

  /** The hook instance: the three cells and the `initialFetch` flag. */
  class ApiHook<T> {
    const initialFetch: bool
    var data: Option<T>
    var loading: bool
    var error: Option<JsError>

    function State(): FetchState<T>
      reads this
    {
      FetchState(data, loading, error)
    }

    /** `useApi(fetchFunction, initialFetch = true)`. */
    constructor(initialFetch: bool := true)
      ensures this.initialFetch == initialFetch
      ensures State() == InitialState(initialFetch)
    {
      this.initialFetch := initialFetch;
      data := None;
      loading := initialFetch;
      error := None;
    }

    /** `fetchData()`: `setLoading(true)`, await the call, then record the
        outcome, return or rethrow, and finally clear `loading`. */
    method FetchData(outcome: Result<T, Thrown>) returns (r: Result<T, JsError>)
      modifies this
      ensures State() == Settled(Started(old(State())), outcome)
      ensures r == Returned(outcome)
    {
      loading := true;
      match outcome {
        case Success(result) =>
          data := Some(result);
          error := None;
          r := Success(result);
        case Failure(err) =>
          var errorObj := Normalize(err);
          error := Some(errorObj);
          r := Failure(errorObj);
      }
      loading := false;
    }

    /** `refetch`: the very `fetchData` callback. */
    method Refetch(outcome: Result<T, Thrown>) returns (r: Result<T, JsError>)
      modifies this
      ensures State() == Settled(Started(old(State())), outcome)
      ensures r == Returned(outcome)
    {
      r := FetchData(outcome);
    }

    /** The mount effect: a fetch only when `initialFetch` is set; its
        promise is not awaited. */
    method Mount(outcome: Result<T, Thrown>)
      modifies this
      ensures initialFetch ==> State() == Settled(Started(old(State())), outcome)
      ensures !initialFetch ==> State() == old(State())
    {
      if initialFetch {
        var _ := FetchData(outcome);
      }
    }
  }

  /** A hook created without the flag starts loading, and its mount
      settles a fetch as `fetchData` does. */
  method DefaultHookFetchesOnMount<T>(outcome: Result<T, Thrown>) returns (initial: FetchState<T>, mounted: FetchState<T>)
    ensures initial == FetchState(None, true, None)
    ensures mounted == Settled(Started(initial), outcome)
    ensures mounted.loading == false && mounted.error == Rethrown(outcome)
  {
    var hook := new ApiHook<T>();
    initial := hook.State();
    hook.Mount(outcome);
    mounted := hook.State();
  }

  /** A hook created without `initialFetch` stays idle through its mount;
      a failed `refetch` then leaves no data, and a later successful one
      clears the error. */
  method ManualFetchScenario<T>(t: Thrown, v: T) returns (afterMount: FetchState<T>, afterFailure: FetchState<T>, afterSuccess: FetchState<T>)
    ensures afterMount == FetchState(None, false, None)
    ensures afterFailure == FetchState(None, false, Some(Normalize(t)))
    ensures afterSuccess == FetchState(Some(v), false, None)
  {
    var hook := new ApiHook<T>(false);
    hook.Mount(Success(v));
    afterMount := hook.State();
    var _ := hook.Refetch(Failure(t));
    afterFailure := hook.State();
    var _ := hook.Refetch(Success(v));
    afterSuccess := hook.State();
  }
}

/** The `ApiDataFetcher` component (app/components/ApiDataFetcher.tsx): the
    same `(data, loading, error)` cells as `useApi`, filled by an effect
    that swallows the error, and a render choice among four views. */
module ApiDataFetcher {
  import opened Wrappers
  import opened JsRuntime
  import opened UseApi

  /** What the component renders: the loading element, the error element
      for an error, the "no data" message, or the children called with the
      data. The elements themselves are props and stay abstract. */
  datatype View<T> = LoadingView | ErrorView(error: JsError) | NoDataView | ChildrenView(data: T)

  /** The first render: `loading` starts true whatever the caller wants. */
  function Initial<T>(): (s: FetchState<T>)
    ensures s.loading && s.data.None? && s.error.None?
  {
    InitialState(true)
  }

  /** The render selection: loading before error before the "no data"
      message before the children, and the children only with truthy data
      (`truthy` is JavaScript truthiness on the payload type). */
  function Render<T>(s: FetchState<T>, truthy: T -> bool): (v: View<T>)
    ensures v.LoadingView? <==> s.loading
    ensures v.ErrorView? <==> !s.loading && s.error.Some?
    ensures v.ErrorView? ==> v.error == s.error.value
    ensures v.NoDataView? <==> !s.loading && s.error.None? && (s.data.None? || !truthy(s.data.value))
    ensures v.ChildrenView? <==> !s.loading && s.error.None? && s.data.Some? && truthy(s.data.value)
    ensures v.ChildrenView? ==> v.data == s.data.value
  {
    if s.loading then LoadingView
    else if s.error.Some? then ErrorView(s.error.value)
    else if s.data.None? || !truthy(s.data.value) then NoDataView
    else ChildrenView(s.data.value)
  }

  /** While a fetch is in flight nothing but the loading view shows, even
      with data or an error from before. */
  lemma LoadingHidesEverything<T>(s: FetchState<T>, truthy: T -> bool)
    ensures Render(Started(s), truthy) == LoadingView
  {
  }

  /** After a failed fetch the error view shows, so stale data kept in the
      state is not rendered. */
  lemma ErrorHidesStaleData<T>(s: FetchState<T>, t: Thrown, truthy: T -> bool)
    ensures Render(Settled(Started(s), Failure(t)), truthy) == ErrorView(Normalize(t))
  {
  }

  /** After a successful fetch the children get exactly the fetched value
      when it is truthy, and the "no data" message shows otherwise. */
  lemma SuccessRendersFetchedValue<T>(s: FetchState<T>, v: T, truthy: T -> bool)
    ensures truthy(v) ==> Render(Settled(Started(s), Success(v)), truthy) == ChildrenView(v)
    ensures !truthy(v) ==> Render(Settled(Started(s), Success(v)), truthy) == NoDataView
  {
  }

  /** The component instance and its three cells. */
  class Fetcher<T> {
    var data: Option<T>
    var loading: bool
    var error: Option<JsError>

    function State(): FetchState<T>
      reads this
    {
      FetchState(data, loading, error)
    }

    constructor()
      ensures State() == Initial()
    {
      data := None;
      loading := true;
      error := None;
    }

    /** `getData()`: the effect body. The outcome is recorded exactly as by
        `useApi`'s `fetchData`, and nothing is returned or rethrown. */
    method GetData(outcome: Result<T, Thrown>)
      modifies this
      ensures State() == Settled(Started(old(State())), outcome)
    {
      loading := true;
      match outcome {
        case Success(result) =>
          data := Some(result);
          error := None;
        case Failure(err) =>
          error := Some(Normalize(err));
      }
      loading := false;
    }
  }

  /** A mounted component: the first render shows the loading view, and
      after a failure the render shows the error, never the children. */
  method MountThenFail<T>(t: Thrown, truthy: T -> bool) returns (first: View<T>, settled: View<T>)
    ensures first == LoadingView
    ensures settled == ErrorView(Normalize(t))
  {
    var fetcher := new Fetcher<T>();
    first := Render(fetcher.State(), truthy);
    fetcher.GetData(Failure(t));
    settled := Render(fetcher.State(), truthy);
  }
}

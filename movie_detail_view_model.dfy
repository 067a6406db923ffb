/**
 * MovieDetailViewModel.kt: the detail screen's view-model. The detail flow
 * emits `Loading` and then one `Success` or `Error`; `combine` applies a
 * reducer to the latest flow value and the current `_uiState`; `stateIn`
 * exposes the default state until the first combination. The
 * `GetMovieDetailUseCase` the flow calls is not part of this model: its
 * outcome (a `Result`, or an exception it lets through) is a parameter.
 */
module DetailViewModel {
  import opened Wrappers
  import opened Kotlin
  import opened DetailModels
  import opened MovieUiModels
  import A = ApiStates

  /** MovieDetailUiState.kt, with its defaults. `similarMovies` holds `MovieUi`, standing in for the `Movie` type. */
  datatype MovieDetailUiState = MovieDetailUiState(
    movieDetail: Option<MovieDetail> := None,
    isLoading: bool := false,
    errorMessage: Option<string> := None,
    isFavorite: bool := false,
    isWatchlisted: bool := false,
    similarMovies: seq<MovieUi> := [],
    isLoadingSimilar: bool := false)

  /** The fields the reducer never touches. */
  predicate SameExtras(a: MovieDetailUiState, b: MovieDetailUiState) {
    a.isFavorite == b.isFavorite && a.isWatchlisted == b.isWatchlisted
    && a.similarMovies == b.similarMovies && a.isLoadingSimilar == b.isLoadingSimilar
  }

  /**
   * The `combine` lambda. Loading only raises `isLoading`; an error lowers it
   * and replaces the message; a success lowers it and stores the detail,
   * leaving any earlier message in place.
   */
  function Reduce(event: A.ApiState<MovieDetail>, current: MovieDetailUiState): (next: MovieDetailUiState)
    ensures SameExtras(next, current)
    ensures next.isLoading <==> event.Loading?
    ensures next.errorMessage == (if event.Error? then Some(event.message) else current.errorMessage)
    ensures next.movieDetail == (if event.Success? then Some(event.data) else current.movieDetail)
  {
    match event
    case Loading => current.(isLoading := true)
    case Error(message) => current.(isLoading := false, errorMessage := Some(message))
    case Success(data) => current.(isLoading := false, movieDetail := Some(data))
  }

  /**
   * Applying the same event twice is applying it once. The view-model as
   * written always reduces over its untouched `_uiState`, so it never chains
   * two reductions; they chain only in `MovieDetailStateHolder`, which reduces
   * over its own state.
   */
  lemma ReduceIdempotent(event: A.ApiState<MovieDetail>, s: MovieDetailUiState)
    ensures Reduce(event, Reduce(event, s)) == Reduce(event, s)
  {
  }

  /**
   * A loading step leaves no trace once a result arrives. As with
   * `ReduceIdempotent`, only `MovieDetailStateHolder` applies the result on
   * top of the loading state; the view-model as written reduces each event
   * over the untouched `_uiState`.
   */
  lemma LoadingLeavesNoTrace(event: A.ApiState<MovieDetail>, s: MovieDetailUiState)
    requires !event.Loading?
    ensures Reduce(event, Reduce(A.Loading, s)) == Reduce(event, s)
  {
  }

  /**
   * `getDetailFlow`: `Loading`, then `Success` exactly when the use case
   * returned a success; a failure, or an exception that escapes the use case
   * and is caught by `catch`, becomes `Error` with the message or "".
   */
  function DetailFlow(outcome: Call<Result<MovieDetail, Throwable>>): (events: seq<A.ApiState<MovieDetail>>)
    ensures |events| == 2 && events[0] == A.Loading && !events[1].Loading?
    ensures events[1].Success? <==> outcome.Returned? && outcome.value.Success?
    ensures events[1].Success? ==> events[1].data == outcome.value.value
    ensures outcome.Returned? && outcome.value.Failure? ==> events[1] == A.Error(OrEmpty(outcome.value.error.message))
    ensures outcome.Threw? ==> events[1] == A.Error(OrEmpty(outcome.exception.message))
  {
    var last :=
      match outcome
      case Returned(Success(detail)) => A.Success(detail)
      case Returned(Failure(e)) => A.Error(OrEmpty(e.message))
      case Threw(e) => A.Error(OrEmpty(e.message));
    [A.Loading, last]
  }

  /** The exposed state: the default until the flow has emitted, then the reducer over the latest event and `_uiState`. */
  function Exposed(lastEvent: Option<A.ApiState<MovieDetail>>, held: MovieDetailUiState): MovieDetailUiState {
    if lastEvent.None? then MovieDetailUiState() else Reduce(lastEvent.value, held)
  }

  /**
   * After the whole flow over the untouched `_uiState`, the screen is not
   * loading and shows either the detail or an error message, never both.
   */
  lemma DetailScreenSettles(outcome: Call<Result<MovieDetail, Throwable>>)
    ensures var s := Exposed(Some(DetailFlow(outcome)[1]), MovieDetailUiState());
            && !s.isLoading
            && (s.movieDetail.Some? <==> s.errorMessage.None?)
            && (outcome.Returned? && outcome.value.Success? ==> s.movieDetail == Some(outcome.value.value))
    ensures Exposed(Some(DetailFlow(outcome)[0]), MovieDetailUiState()).isLoading
  {
  }

  /**
   * The view-model: `heldState` is `_uiState`, which only `clearError` writes,
   * and `lastEvent` the latest value of the detail flow seen by `combine`.
   */
  class MovieDetailViewModel {
    var heldState: MovieDetailUiState
    var lastEvent: Option<A.ApiState<MovieDetail>>

    function UiState(): MovieDetailUiState
      reads this
    {
      Exposed(lastEvent, heldState)
    }

    /** Nothing ever writes the reducer's result back: `_uiState` keeps its defaults. */
    predicate Valid()
      reads this
    {
      heldState == MovieDetailUiState()
    }

    /** The initial exposed state is the default: no detail, not loading, no error. */
    constructor ()
      ensures Valid() && lastEvent == None
      ensures UiState() == MovieDetailUiState() && UiState().movieDetail.None? && !UiState().isLoading
    {
      heldState := MovieDetailUiState();
      lastEvent := None;
    }

    /** `combine` receives the next value of the detail flow. */
    method Collect(event: A.ApiState<MovieDetail>)
      requires Valid()
      modifies this
      ensures Valid()
      ensures lastEvent == Some(event) && heldState == old(heldState)
      ensures UiState() == Reduce(event, MovieDetailUiState())
    {
      lastEvent := Some(event);
    }

    /**
     * `clearError()` as written: `_uiState` had no error to clear, and
     * `combine` re-applies the latest `Error` to it, so the shown error stays.
     */
    method ClearError()
      requires Valid()
      modifies this
      ensures Valid()
      ensures heldState == old(heldState).(errorMessage := None) && lastEvent == old(lastEvent)
      ensures UiState() == old(UiState())
    {
      heldState := heldState.(errorMessage := None);
    }
  }

  /**
   * The screen's sequence as written: the load fails, the message is shown and
   * `clearError()` is called. The error is still exposed afterwards.
   */
  method FailedLoadThenClearError(e: Throwable) returns (shown: Option<string>)
    ensures shown == Some(OrEmpty(e.message))
  {
    var vm := new MovieDetailViewModel();
    var events := DetailFlow(Returned(Failure(e)));
    vm.Collect(events[0]);
    vm.Collect(events[1]);
    vm.ClearError();
    shown := vm.UiState().errorMessage;
  }

  /**
   * The state holder the screen expects: the reducer writes into the held
   * state, which is what the screen shows, so clearing the error is seen.
   */
  class MovieDetailStateHolder {
    var uiState: MovieDetailUiState

    constructor ()
      ensures uiState == MovieDetailUiState()
    {
      uiState := MovieDetailUiState();
    }

    method Collect(event: A.ApiState<MovieDetail>)
      modifies this
      ensures uiState == Reduce(event, old(uiState))
    {
      uiState := Reduce(event, uiState);
    }

    /** Clears the shown error and changes nothing else. */
    method ClearError()
      modifies this
      ensures uiState == old(uiState).(errorMessage := None)
    {
      uiState := uiState.(errorMessage := None);
    }
  }

  /** With the intended state holder the same sequence leaves no error shown. */
  method FailedLoadThenClearShownError(e: Throwable) returns (shown: Option<string>)
    ensures shown == None
  {
    var holder := new MovieDetailStateHolder();
    var events := DetailFlow(Returned(Failure(e)));
    holder.Collect(events[0]);
    holder.Collect(events[1]);
    holder.ClearError();
    shown := holder.uiState.errorMessage;
  }

  /**
   * Once cleared, the error stays cleared through a reload until a new error
   * arrives: loading and success keep the message slot as it is.
   */
  lemma ClearedErrorStaysCleared(s: MovieDetailUiState, detail: MovieDetail)
    ensures Reduce(A.Loading, s.(errorMessage := None)).errorMessage == None
    ensures Reduce(A.Success(detail), s.(errorMessage := None)).errorMessage == None
  {
  }
}

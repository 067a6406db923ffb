/**
 * `ApiState`, declared at the end of MovieListViewModel.kt and shared with the
 * detail view-model: the three stages of one load.
 */
module ApiStates {
  datatype ApiState<+T> = Success(data: T) | Error(message: string) | Loading
}

/**
 * MovieListViewModel.kt: the search screen's view-model. `movieQuery` is set
 * by `onSearchQueryChanged`; once the query settles (`debounce`) and differs
 * from the last one looked up (`distinctUntilChanged`), a lookup emits a
 * loading state and then one result state, and a newer lookup supersedes an
 * older one (`flatMapLatest`), modelled by a generation counter. The
 * `GetMoviesUseCase` the lookup calls is not part of this model: its outcome
 * is a parameter. Timing, cancellation and the sharing policy of `stateIn` are
 * left out.
 */
module ListViewModel {
  import opened Wrappers
  import opened Kotlin
  import opened MovieUiModels

  const UNKNOWN_ERROR: string := "Unknown Error"

  /** MovieListUiState.kt, with its defaults. `movies` holds `MovieUi`, standing in for the `Movie` type. */
  datatype MovieListUiState = MovieListUiState(
    movies: seq<MovieUi> := [],
    filteredMovies: seq<MovieUi> := [],
    searchQuery: string := "",
    isLoading: bool := false,
    errorMessage: Option<string> := None,
    isRefreshing: bool := false)

  /**
   * The shape of every state the screen can be shown: never loading and failed
   * at once, no movies while loading or failed, and the fields the view-model
   * never sets left at their defaults.
   */
  predicate WellFormed(s: MovieListUiState) {
    && !(s.isLoading && s.errorMessage.Some?)
    && (s.isLoading || s.errorMessage.Some? ==> s.movies == [])
    && s.filteredMovies == [] && !s.isRefreshing
  }

  /** The first state of a lookup: nothing of an earlier result is carried over. */
  function LoadingState(query: string): (s: MovieListUiState)
    ensures WellFormed(s) && s.isLoading && s.searchQuery == query && s.movies == [] && s.errorMessage.None?
  {
    MovieListUiState(searchQuery := query, isLoading := true)
  }

  /** The message shown for a failure: the exception's, or "Unknown Error" when it has none. */
  function FailureMessage(e: Throwable): (m: string)
    ensures e.message.Some? ==> m == e.message.value
    ensures e.message.None? ==> m == UNKNOWN_ERROR
  {
    if e.message.Some? then e.message.value else UNKNOWN_ERROR
  }

  /** The second state of a lookup, from the use case's outcome. */
  function ResultState(query: string, outcome: Result<seq<MovieUi>, Throwable>): (s: MovieListUiState)
    ensures WellFormed(s) && !s.isLoading && s.searchQuery == query
    ensures s.errorMessage.Some? <==> outcome.Failure?
    ensures outcome.Success? ==> s.movies == outcome.value
    ensures outcome.Failure? ==> s.errorMessage == Some(FailureMessage(outcome.error))
  {
    match outcome
    case Success(movies) => MovieListUiState(searchQuery := query, movies := movies, isLoading := false)
    case Failure(e) => MovieListUiState(searchQuery := query, isLoading := false, errorMessage := Some(FailureMessage(e)))
  }

  /** The states one lookup of `query` emits, in order. */
  function LookupStates(query: string, outcome: Result<seq<MovieUi>, Throwable>): seq<MovieListUiState> {
    [LoadingState(query), ResultState(query, outcome)]
  }

  /**
   * Each lookup emits exactly two well-formed states for its query: loading,
   * then one terminal state carrying either the movies or a non-null error.
   */
  lemma LookupEmitsTwoStates(query: string, outcome: Result<seq<MovieUi>, Throwable>)
    ensures |LookupStates(query, outcome)| == 2
    ensures forall s :: s in LookupStates(query, outcome) ==> WellFormed(s) && s.searchQuery == query
    ensures LookupStates(query, outcome)[0].isLoading && !LookupStates(query, outcome)[1].isLoading
    ensures LookupStates(query, outcome)[1].movies != [] ==> outcome.Success?
  {
  }

  /**
   * The view-model. `heldState` is `_uiState`, `lastLookup` the query
   * `distinctUntilChanged` last let through, `generation` counts lookups so
   * that a superseded one is recognised, and `uiState` is the exposed state.
   */
  class MovieListViewModel {
    var movieQuery: string
    var heldState: MovieListUiState
    var lastLookup: Option<string>
    var generation: nat
    var pending: bool
    var uiState: MovieListUiState

    /** The exposed state is always well-formed and belongs to the last lookup, or is the initial state. */
    predicate Valid()
      reads this
    {
      && WellFormed(uiState)
      && (lastLookup.Some? ==> uiState.searchQuery == lastLookup.value)
      && (lastLookup.None? ==> uiState == MovieListUiState() && !pending)
      && (pending ==> uiState.isLoading)
    }

    /** The initial state: an empty query, nothing loaded, no error. */
    constructor ()
      ensures Valid()
      ensures movieQuery == "" && heldState == MovieListUiState()
      ensures uiState == MovieListUiState(searchQuery := "") && !uiState.isLoading && uiState.movies == []
      ensures lastLookup == None && generation == 0 && !pending
    {
      movieQuery := "";
      heldState := MovieListUiState();
      lastLookup := None;
      generation := 0;
      pending := false;
      uiState := MovieListUiState(searchQuery := "");
    }

    /** `onSearchQueryChanged(query)`: the query is taken verbatim; nothing is looked up yet. */
    method OnSearchQueryChanged(query: string)
      requires Valid()
      modifies this
      ensures Valid()
      ensures movieQuery == query
      ensures heldState == old(heldState) && uiState == old(uiState)
      ensures lastLookup == old(lastLookup) && generation == old(generation) && pending == old(pending)
    {
      movieQuery := query;
    }

    /**
     * The query has settled: unless it equals the last query looked up, a new
     * lookup starts, superseding any pending one, and the loading state is shown.
     */
    method QuerySettled() returns (started: bool)
      requires Valid()
      modifies this
      ensures Valid()
      ensures started <==> old(lastLookup) != Some(old(movieQuery))
      ensures started ==> lastLookup == Some(movieQuery) && generation == old(generation) + 1
                          && pending && uiState == LoadingState(movieQuery)
      ensures !started ==> lastLookup == old(lastLookup) && generation == old(generation)
                           && pending == old(pending) && uiState == old(uiState)
      ensures movieQuery == old(movieQuery) && heldState == old(heldState)
    {
      if lastLookup == Some(movieQuery) {
        started := false;
      } else {
        started := true;
        lastLookup := Some(movieQuery);
        generation := generation + 1;
        pending := true;
        uiState := LoadingState(movieQuery);
      }
    }

    /**
     * The use case answered for lookup number `lookup`. Only the latest pending
     * lookup shows its result; a superseded one was cancelled and shows nothing.
     */
    method LookupCompleted(lookup: nat, outcome: Result<seq<MovieUi>, Throwable>)
      requires Valid()
      modifies this
      ensures Valid()
      ensures old(pending) && lookup == old(generation)
              ==> uiState == ResultState(old(lastLookup).value, outcome) && !pending
      ensures !(old(pending) && lookup == old(generation)) ==> uiState == old(uiState) && pending == old(pending)
      ensures movieQuery == old(movieQuery) && heldState == old(heldState)
      ensures lastLookup == old(lastLookup) && generation == old(generation)
    {
      if pending && lookup == generation {
        uiState := ResultState(lastLookup.value, outcome);
        pending := false;
      }
    }

    /**
     * `clearError()` as written: it clears the error in `_uiState`, which the
     * exposed state is never built from, so the shown error stays.
     */
    method ClearError()
      requires Valid()
      modifies this
      ensures Valid()
      ensures heldState == old(heldState).(errorMessage := None)
      ensures uiState == old(uiState)
      ensures movieQuery == old(movieQuery) && lastLookup == old(lastLookup)
      ensures generation == old(generation) && pending == old(pending)
    {
      heldState := heldState.(errorMessage := None);
    }

    /**
     * The clearing the screen expects: the exposed error is dropped and
     * nothing else changes, so the view-model stays valid.
     */
    method ClearShownError()
      requires Valid()
      modifies this
      ensures Valid()
      ensures uiState == ClearedOfError(old(uiState))
      ensures movieQuery == old(movieQuery) && heldState == old(heldState) && lastLookup == old(lastLookup)
      ensures generation == old(generation) && pending == old(pending)
    {
      uiState := ClearedOfError(uiState);
    }
  }

  /**
   * The screen's sequence as written: a failed lookup, then `clearError()`
   * after the message was shown. The error is still exposed afterwards.
   */
  method FailedSearchThenClearError(query: string, e: Throwable) returns (shown: Option<string>)
    ensures shown == Some(FailureMessage(e))
  {
    var vm := new MovieListViewModel();
    vm.OnSearchQueryChanged(query);
    var started := vm.QuerySettled();
    assert started;
    vm.LookupCompleted(vm.generation, Failure(e));
    vm.ClearError();
    shown := vm.uiState.errorMessage;
  }

  /** A state with its error dropped: the rest is kept, and a well-formed state stays well-formed. */
  function ClearedOfError(s: MovieListUiState): (r: MovieListUiState)
    ensures r.errorMessage.None?
    ensures r.movies == s.movies && r.searchQuery == s.searchQuery && r.isLoading == s.isLoading
    ensures WellFormed(s) ==> WellFormed(r)
  {
    s.(errorMessage := None)
  }

  /** With the intended clearing, the same sequence leaves no error shown and keeps the query. */
  method FailedSearchThenClearShownError(query: string, e: Throwable) returns (shown: MovieListUiState)
    ensures shown.errorMessage == None
    ensures shown == MovieListUiState(searchQuery := query)
  {
    var vm := new MovieListViewModel();
    vm.OnSearchQueryChanged(query);
    var started := vm.QuerySettled();
    assert started;
    vm.LookupCompleted(vm.generation, Failure(e));
    vm.ClearShownError();
    shown := vm.uiState;
  }
}

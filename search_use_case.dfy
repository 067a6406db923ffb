/**
 * SearchMoviesUseCase.kt: a blank query gives an empty success without asking
 * the repository; otherwise the repository's answer is wrapped in a `Result`.
 * `catch (e: Exception)` turns an exception into a failure that carries it; a
 * Kotlin `Error` is not caught and leaves `invoke` as a throw. The repository's
 * `searchMovies` is a parameter that either returns or throws.
 */
module SearchMoviesUseCase {
  import opened Wrappers
  import opened Kotlin
  import opened MovieUiModels
  import FakeMovieRepository

  /** `SearchMoviesUseCaseImpl.invoke(query)` */
  function Invoke(searchMovies: string -> Call<seq<MovieUi>>, query: string): (r: Call<Result<seq<MovieUi>, Throwable>>)
    ensures IsBlank(query) ==> r == Returned(Success([]))
    ensures !IsBlank(query) && searchMovies(query).Returned? ==> r == Returned(Success(searchMovies(query).value))
    ensures r.Returned? && r.value.Failure?
            <==> !IsBlank(query) && searchMovies(query).Threw? && !searchMovies(query).exception.isError
    ensures r.Returned? && r.value.Failure? ==> r.value.error == searchMovies(query).exception
    ensures r.Threw? <==> !IsBlank(query) && searchMovies(query).Threw? && searchMovies(query).exception.isError
    ensures r.Threw? ==> r.exception == searchMovies(query).exception
  {
    if IsBlank(query) then Returned(Success([]))
    else
      match searchMovies(query)
      case Returned(movies) => Returned(Success(movies))
      case Threw(e) => if e.isError then Threw(e) else Returned(Failure(e))
  }

  /** A blank query never reaches the repository: any two repositories give the same answer. */
  lemma BlankQueryIgnoresRepository(a: string -> Call<seq<MovieUi>>, b: string -> Call<seq<MovieUi>>, query: string)
    requires IsBlank(query)
    ensures Invoke(a, query) == Invoke(b, query) == Returned(Success([]))
  {
  }

  /** The fake repository as a function that never throws. */
  function FakeSearch(query: string): Call<seq<MovieUi>> {
    Returned(FakeMovieRepository.SearchMovies(query))
  }

  /**
   * Over the fake repository the use case never fails, and it answers with the
   * repository's search exactly when the query is not blank.
   */
  lemma InvokeOverFakeRepository(query: string)
    ensures Invoke(FakeSearch, query).Returned? && Invoke(FakeSearch, query).value.Success?
    ensures !IsBlank(query) ==> Invoke(FakeSearch, query).value.value == FakeMovieRepository.SearchMovies(query)
    ensures IsBlank(query) ==> Invoke(FakeSearch, query).value.value == []
  {
  }

  /**
   * The blank check hides matches the repository would find: a single blank
   * matches "Jurassic World Rebirth", yet the use case answers with no movie.
   */
  lemma BlankQueryHidesMatches()
    ensures Invoke(FakeSearch, " ") == Returned(Success([]))
    ensures FakeMovieRepository.SearchMovies(" ") != []
  {
    var jurassic := FakeMovieRepository.SAMPLE_MOVIES[3];
    assert jurassic.title == "Jurassic World Rebirth";
    BlankMatchesAt(jurassic.title, 8);
    assert jurassic in FakeMovieRepository.SAMPLE_MOVIES;
  }

  lemma BlankMatchesAt(s: string, i: nat)
    requires i < |s| && s[i] == ' '
    ensures ContainsIgnoreCase(s, " ")
  {
    assert RegionMatchesIgnoreCase(s, i, " ");
  }
}

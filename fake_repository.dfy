/**
 * FakeMovieRepositoryImpl.kt: the stand-in repository over the built-in
 * sample data. Trending returns the five sample movies, search keeps those
 * whose title, overview or original title contains the query ignoring case,
 * and detail returns the one sample detail whatever the id. The simulated
 * network delays are left out.
 *
 * The source declares the results as the presentation `Movie` and
 * `MovieDetail` types, while its sample data (TrendingScreen.kt and
 * MovieDetailScreen.kt) are `MovieUi` and `MovieDetailUiModel` values; the
 * model uses the types of the sample data.
 */
module FakeMovieRepository {
  import opened Wrappers
  import opened Kotlin
  import opened MovieUiModels
  import opened DetailUiModels
  import opened Display

  /** `getSampleMovies()` */
  const SAMPLE_MOVIES: seq<MovieUi> := [
    MovieUi(
      id := 648878,
      title := "Eddington",
      originalTitle := "Eddington",
      overview := "In May of 2020, a standoff between a small-town sheriff and mayor sparks a powder keg as neighbor is pitted against neighbor in Eddington, New Mexico.",
      posterPath := Some("/4GIqZUgPZ146BhibsPHMHef2nXX.jpg"),
      backdropPath := Some("/5PJkK2iVXRO1ydrtgwuJdevmnOe.jpg"),
      releaseDate := "2025-07-16",
      voteAverage := 6.6,
      voteCount := 90,
      popularity := 49.6073,
      adult := false,
      originalLanguage := "en",
      genreIds := [37, 35, 80],
      video := false),
    MovieUi(
      id := 936108,
      title := "Smurfs",
      originalTitle := "Smurfs",
      overview := "When Papa Smurf is mysteriously taken by evil wizards, Razamel and Gargamel, Smurfette leads the Smurfs on a mission into the real world to save him. With the help of new friends, the Smurfs must discover what defines their destiny to save the universe.",
      posterPath := Some("/8o6lkhL32xQJeB52IIG1us5BVey.jpg"),
      backdropPath := Some("/9whEVuKte4Qi0LI4TzPf7glinJW.jpg"),
      releaseDate := "2025-07-05",
      voteAverage := 5.849,
      voteCount := 64,
      popularity := 47.0877,
      adult := false,
      originalLanguage := "en",
      genreIds := [16, 10751, 14],
      video := false),
    MovieUi(
      id := 1078605,
      title := "Weapons",
      originalTitle := "Weapons",
      overview := "When all but one child from the same class mysteriously vanish on the same night at exactly the same time, a community is left questioning who or what is behind their disappearance.",
      posterPath := Some("/cpf7vsRZ0MYRQcnLWteD5jK9ymT.jpg"),
      backdropPath := Some("/Q2OajDi2kcO6yErb1IAyVDTKMs.jpg"),
      releaseDate := "2025-08-04",
      voteAverage := 7.7,
      voteCount := 261,
      popularity := 266.8042,
      adult := false,
      originalLanguage := "en",
      genreIds := [27, 9648],
      video := false),
    MovieUi(
      id := 1234821,
      title := "Jurassic World Rebirth",
      originalTitle := "Jurassic World Rebirth",
      overview := "Five years after the events of Jurassic World Dominion, covert operations expert Zora Bennett is contracted to lead a skilled team on a top-secret mission to secure genetic material from the world's three most massive dinosaurs. When Zora's operation intersects with a civilian family whose boating expedition was capsized, they all find themselves stranded on an island where they come face-to-face with a sinister, shocking discovery that's been hidden from the world for decades.",
      posterPath := Some("/1RICxzeoNCAO5NpcRMIgg1XT6fm.jpg"),
      backdropPath := Some("/zNriRTr0kWwyaXPzdg1EIxf0BWk.jpg"),
      releaseDate := "2025-07-01",
      voteAverage := 6.406,
      voteCount := 1440,
      popularity := 1090.5346,
      adult := false,
      originalLanguage := "en",
      genreIds := [878, 12, 28],
      video := false),
    MovieUi(
      id := 986056,
      title := "Thunderbolts*",
      originalTitle := "Thunderbolts*",
      overview := "After finding themselves ensnared in a death trap, seven disillusioned castoffs must embark on a dangerous mission that will force them to confront the darkest corners of their pasts.",
      posterPath := Some("/hqcexYHbiTBfDIdDWxrxPtVndBX.jpg"),
      backdropPath := Some("/rthMuZfFv4fqEU4JVbgSW9wQ8rs.jpg"),
      releaseDate := "2025-04-30",
      voteAverage := 7.402,
      voteCount := 2179,
      popularity := 97.3721,
      adult := false,
      originalLanguage := "en",
      genreIds := [28, 878, 12],
      video := false)
  ]

  /** `getSampleMovieDetail()` */
  const SAMPLE_MOVIE_DETAIL: MovieDetailUiModel := MovieDetailUiModel(
    adult := false,
    backdropPath := Some("/y1LSnnLu4fPMHDEv0FbybDKtxWD.jpg"),
    belongsToCollectionUiModel := None,
    budget := 25000000,
    genreUiModels := [GenreUiModel(37, "Western"), GenreUiModel(35, "Comedy"), GenreUiModel(80, "Crime")],
    homepage := Some("https://a24films.com/films/eddington"),
    id := 648878,
    imdbId := Some("tt31176520"),
    originCountry := ["US"],
    originalLanguage := "en",
    originalTitle := "Eddington",
    overview := "In May of 2020, a standoff between a small-town sheriff and mayor sparks a powder keg as neighbor is pitted against neighbor in Eddington, New Mexico.",
    popularity := 7.8876,
    posterPath := Some("/4GIqZUgPZ146BhibsPHMHef2nXX.jpg"),
    productionCompanies := [
      ProductionCompanyUiModel(41077, Some("/1ZXsGaFPgrgS6ZZGS37AqD5uU12.png"), "A24", "US"),
      ProductionCompanyUiModel(123620, Some("/ePRhZ3yb09Ya6WMzCCBYopwIYbE.png"), "Square Peg", "US"),
      ProductionCompanyUiModel(178359, None, "828 Productions", "US")],
    productionCountries := [ProductionCountryUiModel("US", "United States of America"), ProductionCountryUiModel("FI", "Finland")],
    releaseDate := "2025-07-16",
    revenue := 11299038,
    runtime := 149,
    spokenLanguageUiModels := [SpokenLanguageUiModel("English", "en", "English")],
    status := "Released",
    tagline := Some("Hindsight is 2020."),
    title := "Eddington",
    video := false,
    voteAverage := 6.6,
    voteCount := 87)

  /** The filter condition of `searchMovies`. */
  predicate Matches(movie: MovieUi, query: string) {
    || ContainsIgnoreCase(movie.title, query)
    || ContainsIgnoreCase(movie.overview, query)
    || ContainsIgnoreCase(movie.originalTitle, query)
  }

  /**
   * `movies.filter { Matches(it, query) }`: exactly the matching movies, none
   * added; it is order preserving by `FilterMatchesAppend`.
   */
  function FilterMatches(movies: seq<MovieUi>, query: string): (r: seq<MovieUi>)
    ensures |r| <= |movies|
    ensures forall m :: m in r <==> m in movies && Matches(m, query)
  {
    if |movies| == 0 then []
    else
      var rest := FilterMatches(movies[1..], query);
      assert movies == [movies[0]] + movies[1..];
      if Matches(movies[0], query) then [movies[0]] + rest else rest
  }

  /** Filtering distributes over concatenation, so the kept movies stay in list order. */
  lemma {:induction false} FilterMatchesAppend(a: seq<MovieUi>, b: seq<MovieUi>, query: string)
    ensures FilterMatches(a + b, query) == FilterMatches(a, query) + FilterMatches(b, query)
  {
    if |a| > 0 {
      assert (a + b)[1..] == a[1..] + b;
      FilterMatchesAppend(a[1..], b, query);
    } else {
      assert a + b == b;
    }
  }

  /** Queries that differ only in letter case keep the same movies. */
  lemma {:induction false} FilterMatchesIgnoresCase(movies: seq<MovieUi>, q1: string, q2: string)
    requires SameIgnoringCase(q1, q2)
    ensures FilterMatches(movies, q1) == FilterMatches(movies, q2)
  {
    if |movies| > 0 {
      var m := movies[0];
      ContainsIgnoreCaseRespectsCase(m.title, q1, q2);
      ContainsIgnoreCaseRespectsCase(m.overview, q1, q2);
      ContainsIgnoreCaseRespectsCase(m.originalTitle, q1, q2);
      FilterMatchesIgnoresCase(movies[1..], q1, q2);
    }
  }

  /** The empty query keeps every movie. */
  lemma {:induction false} FilterMatchesEmptyQuery(movies: seq<MovieUi>)
    ensures FilterMatches(movies, "") == movies
  {
    if |movies| > 0 {
      ContainsEmpty(movies[0].title);
      FilterMatchesEmptyQuery(movies[1..]);
    }
  }

  /** `getTrendingMovies()`: the five sample movies, in order, each once. */
  function GetTrendingMovies(): (r: seq<MovieUi>)
    ensures |r| == 5
    ensures r[0].id == 648878 && r[1].id == 936108 && r[2].id == 1078605 && r[3].id == 1234821 && r[4].id == 986056
    ensures r[0].title == "Eddington" && r[1].title == "Smurfs" && r[2].title == "Weapons"
    ensures r[3].title == "Jurassic World Rebirth" && r[4].title == "Thunderbolts*"
    ensures forall i, j :: 0 <= i < j < |r| ==> r[i].id != r[j].id
  {
    SAMPLE_MOVIES
  }

  /** `searchMovies(query)` over the sample movies. */
  function SearchMovies(query: string): (r: seq<MovieUi>)
    ensures |r| <= |SAMPLE_MOVIES|
    ensures forall m :: m in r <==> m in SAMPLE_MOVIES && Matches(m, query)
  {
    FilterMatches(SAMPLE_MOVIES, query)
  }

  /** Every search result is a trending movie, and the empty query finds them all. */
  lemma SearchWithinTrending(query: string)
    ensures forall m :: m in SearchMovies(query) ==> m in GetTrendingMovies()
    ensures SearchMovies("") == GetTrendingMovies()
  {
    FilterMatchesEmptyQuery(SAMPLE_MOVIES);
  }

  /** Search ignores the case of the query. */
  lemma SearchIgnoresCase(q1: string, q2: string)
    requires SameIgnoringCase(q1, q2)
    ensures SearchMovies(q1) == SearchMovies(q2)
  {
    FilterMatchesIgnoresCase(SAMPLE_MOVIES, q1, q2);
  }

  /** `getMovieDetail(movieId)`: the sample detail, whatever the id. */
  function GetMovieDetail(movieId: Int): (r: MovieDetailUiModel)
    ensures r.id == 648878 && r.title == "Eddington"
  {
    SAMPLE_MOVIE_DETAIL
  }

  /** The detail does not depend on the id asked for. */
  lemma GetMovieDetailIgnoresId(a: Int, b: Int)
    ensures GetMovieDetail(a) == GetMovieDetail(b)
    ensures a != 648878 ==> GetMovieDetail(a).id != a
  {
  }

  /** The sample detail's runtime, release year and last company's logo as the detail screen shows them. */
  lemma SampleDetailRuntime()
    ensures SAMPLE_MOVIE_DETAIL.FormattedRuntime() == "2h 29m"
    ensures SAMPLE_MOVIE_DETAIL.ReleaseYear() == "2025"
    ensures SAMPLE_MOVIE_DETAIL.productionCompanies[2].LogoUrl() == None
  {
    RuntimeOf149();
    assert SAMPLE_MOVIE_DETAIL.runtime == 149;
    assert SAMPLE_MOVIE_DETAIL.releaseDate[..4] == "2025";
  }

  lemma RuntimeOf149()
    ensures Display.FormattedRuntime(149) == "2h 29m"
  {
    assert TruncDiv(149, 60) == 2 && TruncRem(149, 60) == 29;
    assert IntToString(2) == "2" by { assert NatToString(2) == "2"; }
    assert IntToString(29) == "29" by { assert NatToString(29) == "29"; }
    assert "2" + "h " + "29" + "m" == "2h 29m";
  }

  /** The sample budget and revenue, grouped by thousands. */
  lemma SampleDetailAmounts()
    ensures SAMPLE_MOVIE_DETAIL.FormattedBudget() == "$25,000,000"
    ensures SAMPLE_MOVIE_DETAIL.FormattedRevenue() == "$11,299,038"
  {
    BudgetGrouping();
    RevenueGrouping();
    assert "$" + "25,000,000" == "$25,000,000";
    assert "$" + "11,299,038" == "$11,299,038";
    assert SAMPLE_MOVIE_DETAIL.budget == 25000000 && SAMPLE_MOVIE_DETAIL.revenue == 11299038;
  }

  lemma BudgetGrouping()
    ensures FormatGrouped(25000000) == "25,000,000"
  {
    assert NatToString(25) == "25";
    NatToStringGroup(25, 0, 0, 0);
    assert NatToString(25000) == "25" + "000";
    NatToStringGroup(25000, 0, 0, 0);
    assert NatToString(25000000) == "25000" + "000";
    GroupThousandsStep("25", "000");
    GroupThousandsStep("25000", "000");
    assert "25" + "," + "000" + "," + "000" == "25,000,000";
  }

  lemma RevenueGrouping()
    ensures FormatGrouped(11299038) == "11,299,038"
  {
    assert NatToString(11) == "11";
    NatToStringGroup(11, 2, 9, 9);
    assert NatToString(11299) == "11" + "299";
    NatToStringGroup(11299, 0, 3, 8);
    assert NatToString(11299038) == "11299" + "038";
    GroupThousandsStep("11", "299");
    GroupThousandsStep("11299", "038");
    assert "11" + "," + "299" + "," + "038" == "11,299,038";
  }

  /** The sample genres, joined in list order. */
  lemma SampleDetailGenres()
    ensures SAMPLE_MOVIE_DETAIL.GenresString() == "Western, Comedy, Crime"
  {
    var names := Names(SAMPLE_MOVIE_DETAIL.genreUiModels, GenreUiName);
    assert names == ["Western", "Comedy", "Crime"];
    SampleGenresJoined(names);
    assert SAMPLE_MOVIE_DETAIL.GenresString() == JoinToString(names, ", ");
  }

  lemma SampleGenresJoined(names: seq<string>)
    requires names == ["Western", "Comedy", "Crime"]
    ensures JoinToString(names, ", ") == "Western, Comedy, Crime"
  {
    assert JoinToString(["Crime"], ", ") == "Crime";
    assert JoinToString(["Comedy", "Crime"], ", ") == "Comedy, Crime";
  }
}

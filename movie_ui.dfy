/**
 * The list-item record of MovieUi.kt and its display helpers. Its backdrop
 * default is "w780", smaller than the detail models' "w1280".
 */
module MovieUiModels {
  import opened Wrappers
  import opened Kotlin
  import opened Display

  /** `popularity` and `voteAverage` are Kotlin `Double`s; they are only copied. */
  datatype MovieUi = MovieUi(
    id: Int,
    title: string,
    originalTitle: string,
    overview: string,
    posterPath: Option<string>,
    backdropPath: Option<string>,
    releaseDate: string,
    voteAverage: real,
    voteCount: Int,
    popularity: real,
    adult: bool,
    originalLanguage: string,
    genreIds: seq<Int>,
    video: bool)
  {
    /** `getPosterUrl(size = "w500")` */
    function PosterUrl(size: string := "w500"): (r: Option<string>)
      ensures r.None? <==> posterPath.None?
      ensures ImagePath(size, r) == posterPath
    {
      ImagePathOfImageUrl(size, posterPath);
      ImageUrl(size, posterPath)
    }

    /** `getBackdropUrl(size = "w780")` */
    function BackdropUrl(size: string := "w780"): (r: Option<string>)
      ensures r.None? <==> backdropPath.None?
      ensures ImagePath(size, r) == backdropPath
    {
      ImagePathOfImageUrl(size, backdropPath);
      ImageUrl(size, backdropPath)
    }

    /** `getReleaseYear()`: four characters or "Unknown". */
    function ReleaseYear(): (r: string)
      requires releaseDate == "" || |releaseDate| >= 4
      ensures r == UNKNOWN_YEAR <==> releaseDate == ""
      ensures releaseDate != "" ==> r == releaseDate[..4]
      ensures |r| == 4 || r == UNKNOWN_YEAR
    {
      Display.ReleaseYear(releaseDate)
    }
  }

  /** The default sizes differ: the same backdrop path gives a "w780" list URL and a "w1280" detail URL. */
  lemma BackdropDefaultSize(movie: MovieUi)
    requires movie.backdropPath.Some?
    ensures movie.BackdropUrl() == Some(IMAGE_BASE_URL + "w780" + movie.backdropPath.value)
    ensures movie.BackdropUrl() != ImageUrl("w1280", movie.backdropPath)
  {
    var a := IMAGE_BASE_URL + "w780" + movie.backdropPath.value;
    var b := IMAGE_BASE_URL + "w1280" + movie.backdropPath.value;
    assert a[|IMAGE_BASE_URL| + 1] == '7' && b[|IMAGE_BASE_URL| + 1] == '1';
  }
}

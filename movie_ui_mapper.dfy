/** MovieUiMapper.kt: the field-for-field copy of a domain `Movie` into a `MovieUi`. */
module MovieUiMapper {
  import opened Wrappers
  import DomainModels
  import opened MovieUiModels
  import DomainToUiModel

  /**
   * `mapToUi`: the list item for a domain movie. Nothing is lost, nullness of
   * the image paths included: the domain movie is read back from the item.
   */
  function MapToUi(domain: DomainModels.Movie): (ui: MovieUi)
    ensures ui.id == domain.id && ui.title == domain.title
    ensures ui.posterPath == domain.posterPath && ui.backdropPath == domain.backdropPath
    ensures ToDomain(ui) == domain
  {
    MovieUi(
      id := domain.id,
      title := domain.title,
      originalTitle := domain.originalTitle,
      overview := domain.overview,
      posterPath := domain.posterPath,
      backdropPath := domain.backdropPath,
      releaseDate := domain.releaseDate,
      voteAverage := domain.voteAverage,
      voteCount := domain.voteCount,
      popularity := domain.popularity,
      adult := domain.adult,
      originalLanguage := domain.originalLanguage,
      genreIds := domain.genreIds,
      video := domain.video)
  }

  /** The domain movie a list item holds, field by field. */
  function ToDomain(ui: MovieUi): DomainModels.Movie {
    DomainModels.Movie(
      id := ui.id,
      title := ui.title,
      originalTitle := ui.originalTitle,
      overview := ui.overview,
      posterPath := ui.posterPath,
      backdropPath := ui.backdropPath,
      releaseDate := ui.releaseDate,
      voteAverage := ui.voteAverage,
      voteCount := ui.voteCount,
      popularity := ui.popularity,
      adult := ui.adult,
      originalLanguage := ui.originalLanguage,
      genreIds := ui.genreIds,
      video := ui.video)
  }

  /** Distinct domain movies give distinct list items. */
  lemma MapToUiInjective(a: DomainModels.Movie, b: DomainModels.Movie)
    requires MapToUi(a) == MapToUi(b)
    ensures a == b
  {
    assert ToDomain(MapToUi(a)) == ToDomain(MapToUi(b));
  }

  /**
   * `mapToUIList`, taken as the default of the core `DomainToUiModel`: a whole
   * list maps back to itself.
   */
  function MapToUiList(domainList: seq<DomainModels.Movie>): (r: seq<MovieUi>)
    ensures |r| == |domainList|
    ensures DomainToUiModel.MapToUiList(ToDomain, r) == domainList
  {
    DomainToUiModel.MapToUiListInverse(MapToUi, ToDomain, domainList);
    DomainToUiModel.MapToUiList(MapToUi, domainList)
  }
}

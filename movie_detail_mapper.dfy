/**
 * MovieDetailMapper.kt: a domain `MovieDetail` into a `MovieDetailUiModel`.
 * Scalars are copied, the four lists are mapped element by element, and the
 * optional collection always becomes a collection record: a missing one
 * becomes the empty record with a null id.
 */
module MovieDetailMapper {
  import opened Wrappers
  import D = DomainModels
  import opened DetailUiModels
  import DomainToUiModel

  /** The collection record for a missing domain collection. */
  const EMPTY_COLLECTION: CollectionUiModel := CollectionUiModel(id := None, name := "", posterPath := None, backdropPath := None)

  function MapCollection(collection: Option<D.Collection>): CollectionUiModel {
    CollectionUiModel(
      id := if collection.Some? then Some(collection.value.id) else None,
      name := if collection.Some? then collection.value.name else "",
      posterPath := if collection.Some? then collection.value.posterPath else None,
      backdropPath := if collection.Some? then collection.value.backdropPath else None)
  }

  function MapGenre(genre: D.Genre): GenreUiModel {
    GenreUiModel(id := genre.id, name := genre.name)
  }

  function MapCompany(company: D.ProductionCompany): ProductionCompanyUiModel {
    ProductionCompanyUiModel(id := company.id, name := company.name, logoPath := company.logoPath, originCountry := company.originCountry)
  }

  function MapCountry(country: D.ProductionCountry): ProductionCountryUiModel {
    ProductionCountryUiModel(iso31661 := country.iso31661, name := country.name)
  }

  function MapLanguage(language: D.SpokenLanguage): SpokenLanguageUiModel {
    SpokenLanguageUiModel(iso6391 := language.iso6391, englishName := language.englishName, name := language.name)
  }

  /**
   * `mapToUi`. The collection record is never null, and its id is null exactly
   * when the domain has no collection; the lists keep length and order; and
   * the domain detail can be read back from the result.
   */
  function MapToUi(domain: D.MovieDetail): (ui: MovieDetailUiModel)
    ensures ui.belongsToCollectionUiModel.Some?
    ensures domain.belongsToCollection.None? <==> ui.belongsToCollectionUiModel.value.id.None?
    ensures domain.belongsToCollection.None? ==> ui.belongsToCollectionUiModel == Some(EMPTY_COLLECTION)
    ensures domain.belongsToCollection.Some? ==>
              var c := domain.belongsToCollection.value;
              ui.belongsToCollectionUiModel == Some(CollectionUiModel(Some(c.id), c.name, c.posterPath, c.backdropPath))
    ensures |ui.genreUiModels| == |domain.genres| && |ui.productionCompanies| == |domain.productionCompanies|
    ensures |ui.productionCountries| == |domain.productionCountries| && |ui.spokenLanguageUiModels| == |domain.spokenLanguages|
    ensures forall i :: 0 <= i < |domain.genres| ==>
              ui.genreUiModels[i] == GenreUiModel(domain.genres[i].id, domain.genres[i].name)
    ensures forall i :: 0 <= i < |domain.spokenLanguages| ==>
              ui.spokenLanguageUiModels[i].englishName == domain.spokenLanguages[i].englishName
              && ui.spokenLanguageUiModels[i].iso6391 == domain.spokenLanguages[i].iso6391
    ensures ToDomain(ui) == domain
  {
    DomainToUiModel.MapToUiListInverse(MapGenre, UnmapGenre, domain.genres);
    DomainToUiModel.MapToUiListInverse(MapCompany, UnmapCompany, domain.productionCompanies);
    DomainToUiModel.MapToUiListInverse(MapCountry, UnmapCountry, domain.productionCountries);
    DomainToUiModel.MapToUiListInverse(MapLanguage, UnmapLanguage, domain.spokenLanguages);
    MovieDetailUiModel(
      adult := domain.adult,
      backdropPath := domain.backdropPath,
      belongsToCollectionUiModel := Some(MapCollection(domain.belongsToCollection)),
      budget := domain.budget,
      genreUiModels := DomainToUiModel.MapToUiList(MapGenre, domain.genres),
      homepage := domain.homepage,
      id := domain.id,
      imdbId := domain.imdbId,
      originCountry := domain.originCountry,
      originalLanguage := domain.originalLanguage,
      originalTitle := domain.originalTitle,
      overview := domain.overview,
      popularity := domain.popularity,
      posterPath := domain.posterPath,
      productionCompanies := DomainToUiModel.MapToUiList(MapCompany, domain.productionCompanies),
      productionCountries := DomainToUiModel.MapToUiList(MapCountry, domain.productionCountries),
      releaseDate := domain.releaseDate,
      revenue := domain.revenue,
      runtime := domain.runtime,
      spokenLanguageUiModels := DomainToUiModel.MapToUiList(MapLanguage, domain.spokenLanguages),
      status := domain.status,
      tagline := domain.tagline,
      title := domain.title,
      video := domain.video,
      voteAverage := domain.voteAverage,
      voteCount := domain.voteCount)
  }

  /** The domain collection a collection record stands for: none when its id is null. */
  function UnmapCollection(collection: Option<CollectionUiModel>): Option<D.Collection> {
    if collection.Some? && collection.value.id.Some? then
      Some(D.Collection(collection.value.id.value, collection.value.name, collection.value.posterPath, collection.value.backdropPath))
    else None
  }

  function UnmapGenre(genre: GenreUiModel): D.Genre {
    D.Genre(id := genre.id, name := genre.name)
  }

  function UnmapCompany(company: ProductionCompanyUiModel): D.ProductionCompany {
    D.ProductionCompany(id := company.id, logoPath := company.logoPath, name := company.name, originCountry := company.originCountry)
  }

  function UnmapCountry(country: ProductionCountryUiModel): D.ProductionCountry {
    D.ProductionCountry(iso31661 := country.iso31661, name := country.name)
  }

  function UnmapLanguage(language: SpokenLanguageUiModel): D.SpokenLanguage {
    D.SpokenLanguage(englishName := language.englishName, iso6391 := language.iso6391, name := language.name)
  }

  /** The domain detail a UI model holds, field by field. */
  function ToDomain(ui: MovieDetailUiModel): D.MovieDetail {
    D.MovieDetail(
      adult := ui.adult,
      backdropPath := ui.backdropPath,
      belongsToCollection := UnmapCollection(ui.belongsToCollectionUiModel),
      budget := ui.budget,
      genres := DomainToUiModel.MapToUiList(UnmapGenre, ui.genreUiModels),
      homepage := ui.homepage,
      id := ui.id,
      imdbId := ui.imdbId,
      originCountry := ui.originCountry,
      originalLanguage := ui.originalLanguage,
      originalTitle := ui.originalTitle,
      overview := ui.overview,
      popularity := ui.popularity,
      posterPath := ui.posterPath,
      productionCompanies := DomainToUiModel.MapToUiList(UnmapCompany, ui.productionCompanies),
      productionCountries := DomainToUiModel.MapToUiList(UnmapCountry, ui.productionCountries),
      releaseDate := ui.releaseDate,
      revenue := ui.revenue,
      runtime := ui.runtime,
      spokenLanguages := DomainToUiModel.MapToUiList(UnmapLanguage, ui.spokenLanguageUiModels),
      status := ui.status,
      tagline := ui.tagline,
      title := ui.title,
      video := ui.video,
      voteAverage := ui.voteAverage,
      voteCount := ui.voteCount)
  }

  /**
   * Distinct domain details give distinct UI models; in particular a missing
   * collection is never confused with a collection whose fields are empty.
   */
  lemma MapToUiInjective(a: D.MovieDetail, b: D.MovieDetail)
    requires MapToUi(a) == MapToUi(b)
    ensures a == b
  {
    assert ToDomain(MapToUi(a)) == ToDomain(MapToUi(b));
  }
}

/**
 * The domain records the two mappers read (`com.example.share.feature.movie.
 * domain.model`). Their declarations are not part of this model; only the
 * fields the mappers read are mirrored, with the types the UI side gives them.
 */
module DomainModels {
  import opened Wrappers
  import opened Kotlin

  datatype Movie = Movie(
    id: Int,
    title: string,
    originalTitle: string,
    overview: string,
    posterPath: Option<string>,
    backdropPath: Option<string>,
    releaseDate: string,
    voteAverage: real,
    voteCount: Int,
    popularity: real,
    adult: bool,
    originalLanguage: string,
    genreIds: seq<Int>,
    video: bool)

  datatype Genre = Genre(id: Int, name: string)

  datatype ProductionCompany = ProductionCompany(id: Int, logoPath: Option<string>, name: string, originCountry: string)

  datatype ProductionCountry = ProductionCountry(iso31661: string, name: string)

  datatype SpokenLanguage = SpokenLanguage(englishName: string, iso6391: string, name: string)

  datatype Collection = Collection(id: Int, name: string, posterPath: Option<string>, backdropPath: Option<string>)

  datatype MovieDetail = MovieDetail(
    adult: bool,
    backdropPath: Option<string>,
    belongsToCollection: Option<Collection>,
    budget: Long,
    genres: seq<Genre>,
    homepage: Option<string>,
    id: Int,
    imdbId: Option<string>,
    originCountry: seq<string>,
    originalLanguage: string,
    originalTitle: string,
    overview: string,
    popularity: real,
    posterPath: Option<string>,
    productionCompanies: seq<ProductionCompany>,
    productionCountries: seq<ProductionCountry>,
    releaseDate: string,
    revenue: Long,
    runtime: Int,
    spokenLanguages: seq<SpokenLanguage>,
    status: string,
    tagline: Option<string>,
    title: string,
    video: bool,
    voteAverage: real,
    voteCount: Int)
}

/**
 * The UI records of MovieDetailUiModel.kt: the movie-detail screen model and
 * the genre, company, country, language and collection records it holds. Each
 * helper delegates to `Display`, and each contract states the helper's
 * partner: the image path read back from the URL, the runtime parsed back, the
 * amount recovered from its grouped digits, the names recovered from the list.
 */
module DetailUiModels {
  import opened Wrappers
  import opened Kotlin
  import opened Display

  datatype GenreUiModel = GenreUiModel(id: Int, name: string)

  datatype ProductionCompanyUiModel = ProductionCompanyUiModel(
    id: Int,
    logoPath: Option<string>,
    name: string,
    originCountry: string)
  {
    /** `getLogoUrl(size = "w154")`: null exactly when there is no logo; the path reads back. */
    function LogoUrl(size: string := "w154"): (r: Option<string>)
      ensures r.None? <==> logoPath.None?
      ensures ImagePath(size, r) == logoPath
    {
      ImagePathOfImageUrl(size, logoPath);
      ImageUrl(size, logoPath)
    }
  }

  datatype ProductionCountryUiModel = ProductionCountryUiModel(iso31661: string, name: string)

  datatype SpokenLanguageUiModel = SpokenLanguageUiModel(englishName: string, iso6391: string, name: string)

  datatype CollectionUiModel = CollectionUiModel(
    id: Option<Int> := None,
    name: string,
    posterPath: Option<string>,
    backdropPath: Option<string>)

  /** The label each list joiner shows for an item. */
  function GenreUiName(g: GenreUiModel): string { g.name }
  function CompanyUiName(c: ProductionCompanyUiModel): string { c.name }
  function CountryUiName(c: ProductionCountryUiModel): string { c.name }
  function LanguageUiEnglishName(l: SpokenLanguageUiModel): string { l.englishName }

  /** `popularity` and `voteAverage` are Kotlin `Double`s; they are only copied. */
  datatype MovieDetailUiModel = MovieDetailUiModel(
    adult: bool,
    backdropPath: Option<string>,
    belongsToCollectionUiModel: Option<CollectionUiModel>,
    budget: Long,
    genreUiModels: seq<GenreUiModel>,
    homepage: Option<string>,
    id: Int,
    imdbId: Option<string>,
    originCountry: seq<string>,
    originalLanguage: string,
    originalTitle: string,
    overview: string,
    popularity: real,
    posterPath: Option<string>,
    productionCompanies: seq<ProductionCompanyUiModel>,
    productionCountries: seq<ProductionCountryUiModel>,
    releaseDate: string,
    revenue: Long,
    runtime: Int,
    spokenLanguageUiModels: seq<SpokenLanguageUiModel>,
    status: string,
    tagline: Option<string>,
    title: string,
    video: bool,
    voteAverage: real,
    voteCount: Int)
  {
    /** `getPosterUrl(size = "w500")` */
    function PosterUrl(size: string := "w500"): (r: Option<string>)
      ensures r.None? <==> posterPath.None?
      ensures ImagePath(size, r) == posterPath
    {
      ImagePathOfImageUrl(size, posterPath);
      ImageUrl(size, posterPath)
    }

    /** `getBackdropUrl(size = "w1280")` */
    function BackdropUrl(size: string := "w1280"): (r: Option<string>)
      ensures r.None? <==> backdropPath.None?
      ensures ImagePath(size, r) == backdropPath
    {
      ImagePathOfImageUrl(size, backdropPath);
      ImageUrl(size, backdropPath)
    }

    /** `getReleaseYear()`; `substring(0, 4)` throws on a non-empty date shorter than four characters. */
    function ReleaseYear(): (r: string)
      requires releaseDate == "" || |releaseDate| >= 4
      ensures r == UNKNOWN_YEAR <==> releaseDate == ""
      ensures releaseDate != "" ==> r == releaseDate[..4]
    {
      Display.ReleaseYear(releaseDate)
    }

    /** `getFormattedRuntime()`: a non-negative runtime prints as "Xh Ym" from 60 minutes on and "Ym" below, and reads back exactly. */
    function FormattedRuntime(): (r: string)
      ensures runtime >= 0 ==> ParseRuntime(r) == Some(runtime)
      ensures 'h' in r <==> runtime >= 60
      ensures runtime >= 0 ==> r == (if runtime >= 60 then NatToString(runtime / 60) + "h " + NatToString(runtime % 60) + "m"
                                     else NatToString(runtime) + "m")
    {
      if runtime >= 0 then
        FormattedRuntimeRoundTrip(runtime);
        FormattedRuntimeNonNegative(runtime);
        Display.FormattedRuntime(runtime)
      else
        Display.FormattedRuntime(runtime)
    }

    /** `getFormattedBudget()` */
    function FormattedBudget(): (r: string)
      ensures budget <= 0 <==> r == NOT_DISCLOSED
      ensures budget > 0 ==> |r| > 1 && r[0] == '$' && DecimalValue(RemoveChar(r[1..], ',')) == Some(budget)
      ensures budget > 0 ==> GroupedByThousands(r[1..])
      ensures budget > 0 ==> r == "$" + GroupThousands(NatToString(budget))
      ensures budget > 0 ==> CountChar(r, ',') == (|NatToString(budget)| - 1) / 3
    {
      FormattedAmount(budget)
    }

    /** `getFormattedRevenue()` */
    function FormattedRevenue(): (r: string)
      ensures revenue <= 0 <==> r == NOT_DISCLOSED
      ensures revenue > 0 ==> |r| > 1 && r[0] == '$' && DecimalValue(RemoveChar(r[1..], ',')) == Some(revenue)
      ensures revenue > 0 ==> GroupedByThousands(r[1..])
      ensures revenue > 0 ==> r == "$" + GroupThousands(NatToString(revenue))
      ensures revenue > 0 ==> CountChar(r, ',') == (|NatToString(revenue)| - 1) / 3
    {
      FormattedAmount(revenue)
    }

    /** `getGenresString()`: the genre names in list order. */
    function GenresString(): (r: string)
      ensures genreUiModels == [] ==> r == ""
      ensures |genreUiModels| > 0 ==> |r| == TotalLength(Names(genreUiModels, GenreUiName)) + 2 * (|genreUiModels| - 1)
      ensures (|genreUiModels| > 0 && forall i :: 0 <= i < |genreUiModels| ==> ',' !in genreUiModels[i].name)
          ==> CountChar(r, ',') == |genreUiModels| - 1
      ensures (|genreUiModels| > 0 && forall i :: 0 <= i < |genreUiModels| ==> ',' !in genreUiModels[i].name)
          ==> (|SplitNames(r)| == |genreUiModels|
               && forall i :: 0 <= i < |genreUiModels| ==> SplitNames(r)[i] == genreUiModels[i].name)
    {
      JoinNames(genreUiModels, GenreUiName)
    }

    /** `getProductionCompaniesString()`: the company names in list order. */
    function ProductionCompaniesString(): (r: string)
      ensures productionCompanies == [] ==> r == ""
      ensures |productionCompanies| > 0 ==> |r| == TotalLength(Names(productionCompanies, CompanyUiName)) + 2 * (|productionCompanies| - 1)
      ensures (|productionCompanies| > 0 && forall i :: 0 <= i < |productionCompanies| ==> ',' !in productionCompanies[i].name)
          ==> CountChar(r, ',') == |productionCompanies| - 1
      ensures (|productionCompanies| > 0 && forall i :: 0 <= i < |productionCompanies| ==> ',' !in productionCompanies[i].name)
          ==> (|SplitNames(r)| == |productionCompanies|
               && forall i :: 0 <= i < |productionCompanies| ==> SplitNames(r)[i] == productionCompanies[i].name)
    {
      JoinNames(productionCompanies, CompanyUiName)
    }

    /** `getProductionCountriesString()`: the country names in list order. */
    function ProductionCountriesString(): (r: string)
      ensures productionCountries == [] ==> r == ""
      ensures |productionCountries| > 0 ==> |r| == TotalLength(Names(productionCountries, CountryUiName)) + 2 * (|productionCountries| - 1)
      ensures (|productionCountries| > 0 && forall i :: 0 <= i < |productionCountries| ==> ',' !in productionCountries[i].name)
          ==> CountChar(r, ',') == |productionCountries| - 1
      ensures (|productionCountries| > 0 && forall i :: 0 <= i < |productionCountries| ==> ',' !in productionCountries[i].name)
          ==> (|SplitNames(r)| == |productionCountries|
               && forall i :: 0 <= i < |productionCountries| ==> SplitNames(r)[i] == productionCountries[i].name)
    {
      JoinNames(productionCountries, CountryUiName)
    }

    /** `getSpokenLanguagesString()`: the English names (not the native ones) in list order. */
    function SpokenLanguagesString(): (r: string)
      ensures spokenLanguageUiModels == [] ==> r == ""
      ensures |spokenLanguageUiModels| > 0 ==> |r| == TotalLength(Names(spokenLanguageUiModels, LanguageUiEnglishName)) + 2 * (|spokenLanguageUiModels| - 1)
      ensures (|spokenLanguageUiModels| > 0 && forall i :: 0 <= i < |spokenLanguageUiModels| ==> ',' !in spokenLanguageUiModels[i].englishName)
          ==> CountChar(r, ',') == |spokenLanguageUiModels| - 1
      ensures (|spokenLanguageUiModels| > 0 && forall i :: 0 <= i < |spokenLanguageUiModels| ==> ',' !in spokenLanguageUiModels[i].englishName)
          ==> (|SplitNames(r)| == |spokenLanguageUiModels|
               && forall i :: 0 <= i < |spokenLanguageUiModels| ==> SplitNames(r)[i] == spokenLanguageUiModels[i].englishName)
    {
      JoinNames(spokenLanguageUiModels, LanguageUiEnglishName)
    }
  }
}

/**
 * The presentation records of MovieDetail.kt: the same movie-detail shape as
 * the UI model with its own copy of every display helper, and a collection
 * whose id is never null. The helpers delegate to `Display` and state the same
 * partners as the UI model's.
 */
module DetailModels {
  import opened Wrappers
  import opened Kotlin
  import opened Display

  datatype Genre = Genre(id: Int, name: string)

  datatype ProductionCompany = ProductionCompany(
    id: Int,
    logoPath: Option<string>,
    name: string,
    originCountry: string)
  {
    /** `getLogoUrl(size = "w154")`: null exactly when there is no logo; the path reads back. */
    function LogoUrl(size: string := "w154"): (r: Option<string>)
      ensures r.None? <==> logoPath.None?
      ensures ImagePath(size, r) == logoPath
    {
      ImagePathOfImageUrl(size, logoPath);
      ImageUrl(size, logoPath)
    }
  }

  datatype ProductionCountry = ProductionCountry(iso31661: string, name: string)

  datatype SpokenLanguage = SpokenLanguage(englishName: string, iso6391: string, name: string)

  datatype Collection = Collection(
    id: Int,
    name: string,
    posterPath: Option<string>,
    backdropPath: Option<string>)

  /** The label each list joiner shows for an item. */
  function GenreName(g: Genre): string { g.name }
  function CompanyName(c: ProductionCompany): string { c.name }
  function CountryName(c: ProductionCountry): string { c.name }
  function LanguageEnglishName(l: SpokenLanguage): string { l.englishName }

  /** `popularity` and `voteAverage` are Kotlin `Double`s; they are only copied. */
  datatype MovieDetail = MovieDetail(
    adult: bool,
    backdropPath: Option<string>,
    belongsToCollection: Option<Collection>,
    budget: Long,
    genres: seq<Genre>,
    homepage: Option<string>,
    id: Int,
    imdbId: Option<string>,
    originCountry: seq<string>,
    originalLanguage: string,
    originalTitle: string,
    overview: string,
    popularity: real,
    posterPath: Option<string>,
    productionCompanies: seq<ProductionCompany>,
    productionCountries: seq<ProductionCountry>,
    releaseDate: string,
    revenue: Long,
    runtime: Int,
    spokenLanguages: seq<SpokenLanguage>,
    status: string,
    tagline: Option<string>,
    title: string,
    video: bool,
    voteAverage: real,
    voteCount: Int)
  {
    /** `getPosterUrl(size = "w500")` */
    function PosterUrl(size: string := "w500"): (r: Option<string>)
      ensures r.None? <==> posterPath.None?
      ensures ImagePath(size, r) == posterPath
    {
      ImagePathOfImageUrl(size, posterPath);
      ImageUrl(size, posterPath)
    }

    /** `getBackdropUrl(size = "w1280")` */
    function BackdropUrl(size: string := "w1280"): (r: Option<string>)
      ensures r.None? <==> backdropPath.None?
      ensures ImagePath(size, r) == backdropPath
    {
      ImagePathOfImageUrl(size, backdropPath);
      ImageUrl(size, backdropPath)
    }

    /** `getReleaseYear()`; `substring(0, 4)` throws on a non-empty date shorter than four characters. */
    function ReleaseYear(): (r: string)
      requires releaseDate == "" || |releaseDate| >= 4
      ensures r == UNKNOWN_YEAR <==> releaseDate == ""
      ensures releaseDate != "" ==> r == releaseDate[..4]
    {
      Display.ReleaseYear(releaseDate)
    }

    /** `getFormattedRuntime()`: a non-negative runtime prints as "Xh Ym" from 60 minutes on and "Ym" below, and reads back exactly. */
    function FormattedRuntime(): (r: string)
      ensures runtime >= 0 ==> ParseRuntime(r) == Some(runtime)
      ensures 'h' in r <==> runtime >= 60
      ensures runtime >= 0 ==> r == (if runtime >= 60 then NatToString(runtime / 60) + "h " + NatToString(runtime % 60) + "m"
                                     else NatToString(runtime) + "m")
    {
      if runtime >= 0 then
        FormattedRuntimeRoundTrip(runtime);
        FormattedRuntimeNonNegative(runtime);
        Display.FormattedRuntime(runtime)
      else
        Display.FormattedRuntime(runtime)
    }

    /** `getFormattedBudget()` */
    function FormattedBudget(): (r: string)
      ensures budget <= 0 <==> r == NOT_DISCLOSED
      ensures budget > 0 ==> |r| > 1 && r[0] == '$' && DecimalValue(RemoveChar(r[1..], ',')) == Some(budget)
      ensures budget > 0 ==> GroupedByThousands(r[1..])
      ensures budget > 0 ==> r == "$" + GroupThousands(NatToString(budget))
      ensures budget > 0 ==> CountChar(r, ',') == (|NatToString(budget)| - 1) / 3
    {
      FormattedAmount(budget)
    }

    /** `getFormattedRevenue()` */
    function FormattedRevenue(): (r: string)
      ensures revenue <= 0 <==> r == NOT_DISCLOSED
      ensures revenue > 0 ==> |r| > 1 && r[0] == '$' && DecimalValue(RemoveChar(r[1..], ',')) == Some(revenue)
      ensures revenue > 0 ==> GroupedByThousands(r[1..])
      ensures revenue > 0 ==> r == "$" + GroupThousands(NatToString(revenue))
      ensures revenue > 0 ==> CountChar(r, ',') == (|NatToString(revenue)| - 1) / 3
    {
      FormattedAmount(revenue)
    }

    /** `getGenresString()`: the genre names in list order. */
    function GenresString(): (r: string)
      ensures genres == [] ==> r == ""
      ensures |genres| > 0 ==> |r| == TotalLength(Names(genres, GenreName)) + 2 * (|genres| - 1)
      ensures (|genres| > 0 && forall i :: 0 <= i < |genres| ==> ',' !in genres[i].name)
          ==> CountChar(r, ',') == |genres| - 1
      ensures (|genres| > 0 && forall i :: 0 <= i < |genres| ==> ',' !in genres[i].name)
          ==> (|SplitNames(r)| == |genres|
               && forall i :: 0 <= i < |genres| ==> SplitNames(r)[i] == genres[i].name)
    {
      JoinNames(genres, GenreName)
    }

    /** `getProductionCompaniesString()`: the company names in list order. */
    function ProductionCompaniesString(): (r: string)
      ensures productionCompanies == [] ==> r == ""
      ensures |productionCompanies| > 0 ==> |r| == TotalLength(Names(productionCompanies, CompanyName)) + 2 * (|productionCompanies| - 1)
      ensures (|productionCompanies| > 0 && forall i :: 0 <= i < |productionCompanies| ==> ',' !in productionCompanies[i].name)
          ==> CountChar(r, ',') == |productionCompanies| - 1
      ensures (|productionCompanies| > 0 && forall i :: 0 <= i < |productionCompanies| ==> ',' !in productionCompanies[i].name)
          ==> (|SplitNames(r)| == |productionCompanies|
               && forall i :: 0 <= i < |productionCompanies| ==> SplitNames(r)[i] == productionCompanies[i].name)
    {
      JoinNames(productionCompanies, CompanyName)
    }

    /** `getProductionCountriesString()`: the country names in list order. */
    function ProductionCountriesString(): (r: string)
      ensures productionCountries == [] ==> r == ""
      ensures |productionCountries| > 0 ==> |r| == TotalLength(Names(productionCountries, CountryName)) + 2 * (|productionCountries| - 1)
      ensures (|productionCountries| > 0 && forall i :: 0 <= i < |productionCountries| ==> ',' !in productionCountries[i].name)
          ==> CountChar(r, ',') == |productionCountries| - 1
      ensures (|productionCountries| > 0 && forall i :: 0 <= i < |productionCountries| ==> ',' !in productionCountries[i].name)
          ==> (|SplitNames(r)| == |productionCountries|
               && forall i :: 0 <= i < |productionCountries| ==> SplitNames(r)[i] == productionCountries[i].name)
    {
      JoinNames(productionCountries, CountryName)
    }

    /** `getSpokenLanguagesString()`: the English names (not the native ones) in list order. */
    function SpokenLanguagesString(): (r: string)
      ensures spokenLanguages == [] ==> r == ""
      ensures |spokenLanguages| > 0 ==> |r| == TotalLength(Names(spokenLanguages, LanguageEnglishName)) + 2 * (|spokenLanguages| - 1)
      ensures (|spokenLanguages| > 0 && forall i :: 0 <= i < |spokenLanguages| ==> ',' !in spokenLanguages[i].englishName)
          ==> CountChar(r, ',') == |spokenLanguages| - 1
      ensures (|spokenLanguages| > 0 && forall i :: 0 <= i < |spokenLanguages| ==> ',' !in spokenLanguages[i].englishName)
          ==> (|SplitNames(r)| == |spokenLanguages|
               && forall i :: 0 <= i < |spokenLanguages| ==> SplitNames(r)[i] == spokenLanguages[i].englishName)
    {
      JoinNames(spokenLanguages, LanguageEnglishName)
    }
  }
}

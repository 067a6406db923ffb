# MovieAndroid core, modelled in Dafny

MovieAndroid is a small Android movie browser. It lists trending movies, searches them and shows a movie's detail page. It also opens a detail page from deep links. This project models the logic under its UI and proves properties about it:

- **Deep links** (`deep_link.dfy`). `handleDeepLink` sorts a link into one of three families: the custom `movieapp:` scheme, `https://movieapp.com` app links and `https://www.themoviedb.org` links. It reads a 32-bit movie id and navigates at most once. `extractMovieIdFromSegment` reads the id from a TMDB slug such as `648878-eddington`.
- **Display helpers** on the three movie records (`display.dfy`, `movie_detail_ui_model.dfy`, `movie_detail.dfy`, `movie_ui.dfy`): TMDB image URLs, the release year, the runtime as `Xh Ym`, budget and revenue as `$25,000,000` or `Not disclosed`, and `", "`-joined name lists. Each helper is proved against a partner that reads its output back:
  - the image path recovered from the URL;
  - the runtime parsed back from the text;
  - the amount recovered from its grouped digits;
  - the names recovered from the joined list.
- **Mappers** (`domain_to_ui.dfy`, `movie_ui_mapper.dfy`, `movie_detail_mapper.dfy`). They copy domain records into UI records. The model proves that nothing is lost, by mapping back. It also proves that a missing collection becomes the empty collection record with a null id.
- **Search**: the fake repository over the sample movies (`fake_repository.dfy`) and the search use case with its blank-query rule (`search_use_case.dfy`).
- **View-models** (`movie_detail_view_model.dfy`, `movie_list_view_model.dfy`):
  - the detail screen's reducer over `ApiState`;
  - the list screen's per-query loading and result states;
  - both `clearError` operations.

Kotlin library behaviour the code relies on is written out in `kotlin.dfy`:
- `toIntOrNull`;
- truncating `/` and `%`;
- `Int.toString`;
- `"%,d"` grouping;
- `joinToString`;
- `isBlank`;
- `contains(ignoreCase = true)`;
- `indexOf`.

Kotlin `Int` and `Long` are subset types of `int` with their ranges. `Double` fields are only copied and are modelled as `real`. A URI arrives already split into scheme, host and path segments.

## Model

| member | source | states |
|---|---|---|
| `Kotlin.ToIntOrNull` | navigation/src/main/java/com/example/navigation/MovieNavHost.kt:106 | `toIntOrNull` gives a value only in `Int` range. It gives one only for digits, with at most one leading sign. The value is the digits' decimal value, negated after a '-'. |
| `Kotlin.ToIntOrNullOfIntToString` | navigation/src/main/java/com/example/navigation/MovieNavHost.kt:39 | Every `Int` printed by `toString` is read back exactly by `toIntOrNull`. |
| `Kotlin.ToIntOrNullOverflow` | navigation/src/main/java/com/example/navigation/MovieNavHost.kt:106 | Digits beyond `Int.MAX_VALUE` read as null, never as a wrapped value. |
| `Kotlin.ToIntOrNullLeadingZeros` | navigation/src/main/java/com/example/navigation/MovieNavHost.kt:50 | Unsigned digits read as their value in `Int` range, whatever zeros lead them ("007" is 7). |
| `Kotlin.ToIntOrNullPlus` | navigation/src/main/java/com/example/navigation/MovieNavHost.kt:50 | A leading '+' is accepted and does not change the value ("+5" is 5). |
| `Kotlin.ToIntOrNullMinus` | navigation/src/main/java/com/example/navigation/MovieNavHost.kt:39 | A leading '-' negates the value, down to `Int.MIN_VALUE`, and "-0" is 0. |
| `Kotlin.ToIntOrNullMinusOverflow` | navigation/src/main/java/com/example/navigation/MovieNavHost.kt:39 | A negative number below `Int.MIN_VALUE` reads as null. |
| `Kotlin.ToIntOrNullRejectsNonDigit` | navigation/src/main/java/com/example/navigation/MovieNavHost.kt:39 | A character that is neither a digit nor a leading sign makes the text read as null. |
| `Kotlin.ToIntOrNullExamples` | navigation/src/main/java/com/example/navigation/MovieNavHost.kt:50 | "+5", "007" and "-0" read as 5, 7 and 0; "abc" reads as null. |
| `Kotlin.IndexOf` | navigation/src/main/java/com/example/navigation/MovieNavHost.kt:98-100 | `indexOf` is -1 exactly when the character is absent. Otherwise it is the first position holding it. |
| `Kotlin.TruncDiv` | feature/movies/presentaition/src/main/java/com/example/feature/movies/presentation/model/MovieDetailUiModel.kt:60 | Kotlin `/` rounds toward zero. It agrees with Euclidean division on a non-negative dividend; on a negative one, q * b lies within one divisor above the dividend. |
| `Kotlin.TruncRem` | feature/movies/presentaition/src/main/java/com/example/feature/movies/presentation/model/MovieDetailUiModel.kt:61 | Kotlin `%` takes the sign of the dividend. Quotient and remainder recompose the dividend. |
| `Kotlin.ContainsEmpty` | feature/movies/presentaition/src/main/java/com/example/feature/movies/presentation/fakedomain/repo/FakeMovieRepositoryImpl.kt:21-25 | Every string contains the empty query. |
| `Kotlin.ContainsIgnoreCaseRespectsCase` | feature/movies/presentaition/src/main/java/com/example/feature/movies/presentation/fakedomain/repo/FakeMovieRepositoryImpl.kt:22-24 | `contains(ignoreCase = true)` gives the same answer for two queries that differ only in letter case. |
| `Kotlin.UngroupThousands` | feature/movies/presentaition/src/main/java/com/example/feature/movies/presentation/model/MovieDetailUiModel.kt:72 | Dropping the separators from a `"%,d"` grouping gives back the digits. |
| `Kotlin.GroupThousandsSeparators` | feature/movies/presentaition/src/main/java/com/example/feature/movies/presentation/model/MovieDetailUiModel.kt:72 | A run of n digits gets exactly (n - 1) / 3 separators. |
| `Kotlin.GroupThousandsPositions` | feature/movies/presentaition/src/main/java/com/example/feature/movies/presentation/model/MovieDetailUiModel.kt:72 | Counted from the right end, exactly every fourth character of the grouping is a ',': the groups are of three digits. |
| `Kotlin.NatToStringGroup` | feature/movies/presentaition/src/main/java/com/example/feature/movies/presentation/model/MovieDetailUiModel.kt:72 | Three more low digits print as three more characters after the high part. |
| `MovieNavHost.ExtractMovieIdFromSegment` | navigation/src/main/java/com/example/navigation/MovieNavHost.kt:89-113 | The id read from a segment is within 0..`Int.MAX_VALUE`. A segment starting with '-' yields null. |
| `MovieNavHost.ExtractMovieIdFromSlug` | navigation/src/main/java/com/example/navigation/MovieNavHost.kt:98-106 | For every id in `Int` range, "<id>" and "<id>-<any slug>" both yield that id. |
| `MovieNavHost.ExtractMovieIdExamples` | navigation/src/main/java/com/example/navigation/MovieNavHost.kt:93-96 | "648878", "648878-eddington" and "648878-eddington-western-comedy" all yield 648878. |
| `MovieNavHost.ExtractMovieIdReadsPrefix` | navigation/src/main/java/com/example/navigation/MovieNavHost.kt:98-106 | The id is `toIntOrNull` of the part before the first '-', or of the whole segment without one. So "007-bond" yields 7, and an empty or non-numeric part yields null. |
| `MovieNavHost.ExtractMovieIdOutOfRange` | navigation/src/main/java/com/example/navigation/MovieNavHost.kt:106-113 | An id beyond `Int.MAX_VALUE` yields null, with or without a slug. |
| `MovieNavHost.ResolveDeepLink` | navigation/src/main/java/com/example/navigation/MovieNavHost.kt:28-88 | A navigated id is in `Int` range. It comes only from non-null data of one of the three families, with "movie" as the first of at least two segments. Outside TMDB links the id is `toIntOrNull` of the second segment. A TMDB id is never negative. |
| `MovieNavHost.CustomSchemeLink` | navigation/src/main/java/com/example/navigation/MovieNavHost.kt:38-44 | A `movieapp:` link whose path starts with "movie" opens every `Int` id in its second segment, whatever the host. |
| `MovieNavHost.AppLinkRoundTrip` | navigation/src/main/java/com/example/navigation/MovieNavHost.kt:47-56 | `https://movieapp.com/movie/<id>` opens every `Int` id. |
| `MovieNavHost.TmdbLinkRoundTrip` | navigation/src/main/java/com/example/navigation/MovieNavHost.kt:59-76 | `https://www.themoviedb.org/movie/<id>-<slug>` opens every non-negative `Int` id. |
| `MovieNavHost.ResolveTmdbLink` | navigation/src/main/java/com/example/navigation/MovieNavHost.kt:59-68 | A well-shaped TMDB link resolves to exactly the id `extractMovieIdFromSegment` reads from its second segment. |
| `MovieNavHost.ResolveCustomSchemeLink` | navigation/src/main/java/com/example/navigation/MovieNavHost.kt:38-44 | A `movieapp` link with "movie" first opens exactly `toIntOrNull` of the second segment, and nothing without a second segment. |
| `MovieNavHost.ResolveAppLink` | navigation/src/main/java/com/example/navigation/MovieNavHost.kt:47-56 | An `https://movieapp.com` link opens exactly `toIntOrNull` of the second segment when the first is "movie", and nothing otherwise. |
| `MovieNavHost.UnreadableIdOpensNothing` | navigation/src/main/java/com/example/navigation/MovieNavHost.kt:39-40 | In both `movieapp` families, a second segment that `toIntOrNull` rejects opens nothing. |
| `MovieNavHost.UnhandledLinks` | navigation/src/main/java/com/example/navigation/MovieNavHost.kt:28-86 | Null data never navigates. Nor does a scheme other than `movieapp` and `https`. |
| `MovieNavHost.CustomSchemeExamples` | navigation/src/main/java/com/example/navigation/MovieNavHost.kt:36-44 | Scheme `movieapp` with path "movie/12345" opens 12345. Host "movie" with path "12345" is not handled. Path "movie/abc" opens nothing. A `mailto:` link is ignored. |
| `MovieNavHost.NavController.Navigate` | navigation/src/main/java/com/example/navigation/MovieNavHost.kt:42 | Navigating appends exactly the destination to the navigation log. |
| `MovieNavHost.HandleDeepLink` | navigation/src/main/java/com/example/navigation/MovieNavHost.kt:28-88 | The `when` adds exactly `MovieDetailDestination(id)` for the resolved id, or nothing. So at most one navigation happens per intent. |
| `Display.ImageUrl` | feature/movies/presentaition/src/main/java/com/example/feature/movies/presentation/model/MovieDetailUiModel.kt:35-42 | The URL is null exactly when the path is null. Otherwise it is the TMDB prefix and the size, followed by the path. |
| `Display.ImagePathOfImageUrl` | feature/movies/presentaition/src/main/java/com/example/feature/movies/presentation/model/MovieUi.kt:22-29 | The path, including its absence, is recovered from the URL of any size. |
| `Display.ReleaseYear` | feature/movies/presentaition/src/main/java/com/example/feature/movies/presentation/model/MovieDetailUiModel.kt:45-51 | The result is "Unknown" exactly for the empty date. Otherwise it is the date's first four characters, and `substring` requires at least four. |
| `Display.ReleaseYearOfIsoDate` | feature/movies/presentaition/src/main/java/com/example/feature/movies/presentation/model/MovieUi.kt:31-37 | A date starting with a four-digit year gives that year, which reads back as the number. |
| `Display.FormattedRuntime` | feature/movies/presentaition/src/main/java/com/example/feature/movies/presentation/model/MovieDetailUiModel.kt:59-67 | The text ends in 'm'. It has an hours part exactly when the runtime is at least 60. |
| `Display.FormattedRuntimeNonNegative` | feature/movies/presentaition/src/main/java/com/example/feature/movies/presentation/model/MovieDetail.kt:57-65 | A runtime of 60 or more prints as "{runtime / 60}h {runtime % 60}m". A runtime in 0..59 prints as "{runtime}m". |
| `Display.FormattedRuntimeRoundTrip` | feature/movies/presentaition/src/main/java/com/example/feature/movies/presentation/model/MovieDetailUiModel.kt:59-67 | Every non-negative runtime reads back exactly from its text: hours * 60 + minutes. |
| `Display.FormattedRuntimeNegative` | feature/movies/presentaition/src/main/java/com/example/feature/movies/presentation/model/MovieDetail.kt:57-65 | Truncating division drops the hours of a negative runtime: -75 prints like -15, as "-15m". |
| `Display.FormattedAmount` | feature/movies/presentaition/src/main/java/com/example/feature/movies/presentation/model/MovieDetailUiModel.kt:70-85 | The result is "Not disclosed" exactly when the amount is not positive. Otherwise it is exactly '$' and the amount's `toString` digits grouped by thousands, with no leading zero. Those digits read back as the amount, with (digits - 1) / 3 separators, at every fourth position from the right. |
| `Display.NamesString` | feature/movies/presentaition/src/main/java/com/example/feature/movies/presentation/model/MovieDetailUiModel.kt:88-100 | No names give "". Comma-free names read back in order, with n - 1 separators for n names. |
| `Display.SplitNamesOfJoin` | feature/movies/presentaition/src/main/java/com/example/feature/movies/presentation/model/MovieDetail.kt:86-98 | Splitting a `", "`-joined list of comma-free names gives back the list. |
| `Display.JoinNames` | feature/movies/presentaition/src/main/java/com/example/feature/movies/presentation/model/MovieDetail.kt:86-103 | Joining the labels of items gives "" for no items. Otherwise its length is the labels' lengths plus 2 for each of the n - 1 ", " separators. When no label holds a comma, it has exactly n - 1 commas and reads back as the labels in item order. |
| `DetailUiModels.ProductionCompanyUiModel.LogoUrl` | feature/movies/presentaition/src/main/java/com/example/feature/movies/presentation/model/MovieDetailUiModel.kt:119-121 | The logo URL is null exactly when `logoPath` is null. The path reads back from it, at the default size "w154". |
| `DetailUiModels.MovieDetailUiModel.PosterUrl` | feature/movies/presentaition/src/main/java/com/example/feature/movies/presentation/model/MovieDetailUiModel.kt:35-37 | The poster URL is null exactly when there is no poster. The path reads back from it, at the default size "w500". |
| `DetailUiModels.MovieDetailUiModel.BackdropUrl` | feature/movies/presentaition/src/main/java/com/example/feature/movies/presentation/model/MovieDetailUiModel.kt:40-42 | The backdrop URL is null exactly when there is no backdrop. The path reads back from it, at the default size "w1280". |
| `DetailUiModels.MovieDetailUiModel.ReleaseYear` | feature/movies/presentaition/src/main/java/com/example/feature/movies/presentation/model/MovieDetailUiModel.kt:45-51 | The result is "Unknown" exactly for the empty date. Otherwise it is the first four characters. |
| `DetailUiModels.MovieDetailUiModel.FormattedRuntime` | feature/movies/presentaition/src/main/java/com/example/feature/movies/presentation/model/MovieDetailUiModel.kt:59-67 | A non-negative runtime prints exactly as "Xh Ym", with X = runtime / 60 and Y = runtime % 60, from 60 minutes on, and as "Ym" below 60. It reads back exactly. The hours part appears exactly from 60 minutes on. |
| `DetailUiModels.MovieDetailUiModel.FormattedBudget` | feature/movies/presentaition/src/main/java/com/example/feature/movies/presentation/model/MovieDetailUiModel.kt:70-76 | The result is "Not disclosed" exactly when the budget is not positive. Otherwise it is exactly '$' and the budget's `toString` digits grouped by thousands: (digits - 1) / 3 separators, a ',' at every fourth position from the right, reading back as the budget. |
| `DetailUiModels.MovieDetailUiModel.FormattedRevenue` | feature/movies/presentaition/src/main/java/com/example/feature/movies/presentation/model/MovieDetailUiModel.kt:79-85 | The result is "Not disclosed" exactly when the revenue is not positive. Otherwise it is exactly '$' and the revenue's `toString` digits grouped by thousands: (digits - 1) / 3 separators, a ',' at every fourth position from the right, reading back as the revenue. |
| `DetailUiModels.MovieDetailUiModel.GenresString` | feature/movies/presentaition/src/main/java/com/example/feature/movies/presentation/model/MovieDetailUiModel.kt:88-90 | No genres give "". Otherwise it is the genre names' lengths plus 2 for each ", " separator. When no genre name holds a comma, it has exactly n - 1 commas for n genres and reads back as the genre names in list order. |
| `DetailUiModels.MovieDetailUiModel.ProductionCompaniesString` | feature/movies/presentaition/src/main/java/com/example/feature/movies/presentation/model/MovieDetailUiModel.kt:93-95 | No companies give "". Otherwise it is the company names' lengths plus 2 for each ", " separator. When no company name holds a comma, it has exactly n - 1 commas for n companies and reads back as the company names in list order. |
| `DetailUiModels.MovieDetailUiModel.ProductionCountriesString` | feature/movies/presentaition/src/main/java/com/example/feature/movies/presentation/model/MovieDetailUiModel.kt:98-100 | No countries give "". Otherwise it is the country names' lengths plus 2 for each ", " separator. When no country name holds a comma, it has exactly n - 1 commas for n countries and reads back as the country names in list order. |
| `DetailUiModels.MovieDetailUiModel.SpokenLanguagesString` | feature/movies/presentaition/src/main/java/com/example/feature/movies/presentation/model/MovieDetailUiModel.kt:103-105 | No languages give "". Otherwise it is the English names' lengths plus 2 for each ", " separator; the native names are not shown. When no English name holds a comma, it has exactly n - 1 commas for n languages and reads back as the English names in list order. |
| `DetailModels.ProductionCompany.LogoUrl` | feature/movies/presentaition/src/main/java/com/example/feature/movies/presentation/model/MovieDetail.kt:117-119 | The logo URL is null exactly when `logoPath` is null. The path reads back from it. |
| `DetailModels.MovieDetail.PosterUrl` | feature/movies/presentaition/src/main/java/com/example/feature/movies/presentation/model/MovieDetail.kt:33-35 | The poster URL is null exactly when there is no poster. The path reads back from it, at the default size "w500". |
| `DetailModels.MovieDetail.BackdropUrl` | feature/movies/presentaition/src/main/java/com/example/feature/movies/presentation/model/MovieDetail.kt:38-40 | The backdrop URL is null exactly when there is no backdrop. The path reads back from it, at the default size "w1280". |
| `DetailModels.MovieDetail.ReleaseYear` | feature/movies/presentaition/src/main/java/com/example/feature/movies/presentation/model/MovieDetail.kt:43-49 | The result is "Unknown" exactly for the empty date. Otherwise it is the first four characters. |
| `DetailModels.MovieDetail.FormattedRuntime` | feature/movies/presentaition/src/main/java/com/example/feature/movies/presentation/model/MovieDetail.kt:57-65 | A non-negative runtime prints exactly as "Xh Ym", with X = runtime / 60 and Y = runtime % 60, from 60 minutes on, and as "Ym" below 60. It reads back exactly. The hours part appears exactly when runtime / 60 > 0. |
| `DetailModels.MovieDetail.FormattedBudget` | feature/movies/presentaition/src/main/java/com/example/feature/movies/presentation/model/MovieDetail.kt:68-74 | The result is "Not disclosed" exactly when the budget is not positive. Otherwise it is exactly '$' and the budget's `toString` digits grouped by thousands: (digits - 1) / 3 separators, a ',' at every fourth position from the right, reading back as the budget. |
| `DetailModels.MovieDetail.FormattedRevenue` | feature/movies/presentaition/src/main/java/com/example/feature/movies/presentation/model/MovieDetail.kt:77-83 | The result is "Not disclosed" exactly when the revenue is not positive. Otherwise it is exactly '$' and the revenue's `toString` digits grouped by thousands: (digits - 1) / 3 separators, a ',' at every fourth position from the right, reading back as the revenue. |
| `DetailModels.MovieDetail.GenresString` | feature/movies/presentaition/src/main/java/com/example/feature/movies/presentation/model/MovieDetail.kt:86-88 | No genres give "". Otherwise it is the genre names' lengths plus 2 for each ", " separator. When no genre name holds a comma, it has exactly n - 1 commas for n genres and reads back as the genre names in list order. |
| `DetailModels.MovieDetail.ProductionCompaniesString` | feature/movies/presentaition/src/main/java/com/example/feature/movies/presentation/model/MovieDetail.kt:91-93 | No companies give "". Otherwise it is the company names' lengths plus 2 for each ", " separator. When no company name holds a comma, it has exactly n - 1 commas for n companies and reads back as the company names in list order. |
| `DetailModels.MovieDetail.ProductionCountriesString` | feature/movies/presentaition/src/main/java/com/example/feature/movies/presentation/model/MovieDetail.kt:96-98 | No countries give "". Otherwise it is the country names' lengths plus 2 for each ", " separator. When no country name holds a comma, it has exactly n - 1 commas for n countries and reads back as the country names in list order. |
| `DetailModels.MovieDetail.SpokenLanguagesString` | feature/movies/presentaition/src/main/java/com/example/feature/movies/presentation/model/MovieDetail.kt:101-103 | No languages give "". Otherwise it is the English names' lengths plus 2 for each ", " separator; the native names are not shown. When no English name holds a comma, it has exactly n - 1 commas for n languages and reads back as the English names in list order. |
| `MovieUiModels.MovieUi.PosterUrl` | feature/movies/presentaition/src/main/java/com/example/feature/movies/presentation/model/MovieUi.kt:22-24 | The poster URL is null exactly when there is no poster. The path reads back from it, at the default size "w500". |
| `MovieUiModels.MovieUi.BackdropUrl` | feature/movies/presentaition/src/main/java/com/example/feature/movies/presentation/model/MovieUi.kt:27-29 | The backdrop URL is null exactly when there is no backdrop. The path reads back from it, at the default size "w780". |
| `MovieUiModels.MovieUi.ReleaseYear` | feature/movies/presentaition/src/main/java/com/example/feature/movies/presentation/model/MovieUi.kt:31-37 | The result is "Unknown" exactly for the empty date. Otherwise it is the first four characters, so the year is always four characters or "Unknown". |
| `MovieUiModels.BackdropDefaultSize` | feature/movies/presentaition/src/main/java/com/example/feature/movies/presentation/model/MovieUi.kt:27-29 | The list item's default backdrop is "w780". It differs from the detail page's "w1280" URL for the same path. |
| `DomainToUiModel.MapToUiList` | core/feature/src/main/kotlin/com/example/core/feature/DomainToUiModel.kt:7-10 | The output has the input's length. The i-th output is `mapToUi` of the i-th input. |
| `DomainToUiModel.MapToUiListAppend` | core/feature/src/main/kotlin/com/example/core/feature/DomainToUiModel.kt:7-10 | Mapping a concatenation is the concatenation of the mapped parts. |
| `DomainToUiModel.MapToUiListInverse` | core/feature/src/main/kotlin/com/example/core/feature/DomainToUiModel.kt:7-10 | With a mapper that has a left inverse, mapping the result back gives the input list. |
| `DomainToUiModel.MapToUiListInjective` | core/feature/src/main/kotlin/com/example/core/feature/DomainToUiModel.kt:7-10 | With an injective mapper, equal mapped lists come from equal input lists. |
| `MovieUiMapper.MapToUi` | feature/movies/presentaition/src/main/java/com/example/feature/movies/presentation/mapper/MovieUiMapper.kt:8-25 | Id, title and both image paths, nulls included, are copied. Every field of the domain movie reads back from the item. |
| `MovieUiMapper.MapToUiInjective` | feature/movies/presentaition/src/main/java/com/example/feature/movies/presentation/mapper/MovieUiMapper.kt:9-24 | Distinct domain movies give distinct list items. |
| `MovieUiMapper.MapToUiList` | core/feature/src/main/kotlin/com/example/core/feature/DomainToUiModel.kt:7-10 | The list mapping, taken as `map { mapToUi(it) }`, keeps the length. The domain list reads back from it in order. |
| `MovieDetailMapper.MapToUi` | feature/movies/presentaition/src/main/java/com/example/feature/movies/presentation/mapper/MovieDetailMapper.kt:13-70 | The collection record is never null. A missing collection becomes the empty record with a null id; a present one is copied. The lists keep length and order, and genres and spoken languages are checked elementwise. The whole domain detail reads back. |
| `MovieDetailMapper.MapToUiInjective` | feature/movies/presentaition/src/main/java/com/example/feature/movies/presentation/mapper/MovieDetailMapper.kt:17-22 | Distinct domain details give distinct UI models. In particular a missing collection is never confused with a collection whose name and paths are empty. |
| `FakeMovieRepository.FilterMatches` | feature/movies/presentaition/src/main/java/com/example/feature/movies/presentation/fakedomain/repo/FakeMovieRepositoryImpl.kt:21-25 | The filter keeps exactly the movies whose title, overview or original title contains the query ignoring case. It adds none. |
| `FakeMovieRepository.FilterMatchesAppend` | feature/movies/presentaition/src/main/java/com/example/feature/movies/presentation/fakedomain/repo/FakeMovieRepositoryImpl.kt:21-25 | Filtering distributes over concatenation, so the kept movies stay in list order. |
| `FakeMovieRepository.FilterMatchesIgnoresCase` | feature/movies/presentaition/src/main/java/com/example/feature/movies/presentation/fakedomain/repo/FakeMovieRepositoryImpl.kt:22-24 | Queries that differ only in letter case keep the same movies. |
| `FakeMovieRepository.FilterMatchesEmptyQuery` | feature/movies/presentaition/src/main/java/com/example/feature/movies/presentation/fakedomain/repo/FakeMovieRepositoryImpl.kt:21-25 | The empty query keeps every movie. |
| `FakeMovieRepository.GetTrendingMovies` | feature/movies/presentaition/src/main/java/com/example/feature/movies/presentation/fakedomain/repo/FakeMovieRepositoryImpl.kt:13-16 | Trending is five movies with distinct ids, in order: Eddington (648878), Smurfs, Weapons, Jurassic World Rebirth and Thunderbolts* (986056). |
| `FakeMovieRepository.SearchMovies` | feature/movies/presentaition/src/main/java/com/example/feature/movies/presentation/fakedomain/repo/FakeMovieRepositoryImpl.kt:18-26 | Search returns at most the sample movies: exactly those that match the query. |
| `FakeMovieRepository.SearchWithinTrending` | feature/movies/presentaition/src/main/java/com/example/feature/movies/presentation/fakedomain/repo/FakeMovieRepositoryImpl.kt:18-26 | Every search result is a trending movie. The empty query finds all of them, in order. |
| `FakeMovieRepository.SearchIgnoresCase` | feature/movies/presentaition/src/main/java/com/example/feature/movies/presentation/fakedomain/repo/FakeMovieRepositoryImpl.kt:22-24 | Search results do not depend on the query's letter case. |
| `FakeMovieRepository.GetMovieDetail` | feature/movies/presentaition/src/main/java/com/example/feature/movies/presentation/fakedomain/repo/FakeMovieRepositoryImpl.kt:28-34 | The detail is the Eddington sample (id 648878). |
| `FakeMovieRepository.GetMovieDetailIgnoresId` | feature/movies/presentaition/src/main/java/com/example/feature/movies/presentation/fakedomain/repo/FakeMovieRepositoryImpl.kt:28-34 | Every requested id gets the same detail, so its id differs from any other requested id. |
| `FakeMovieRepository.SampleDetailRuntime` | feature/movies/presentaition/src/main/java/com/example/feature/movies/presentation/MovieDetailScreen.kt:548-589 | The sample detail shows "2h 29m" and "2025". Its third company has no logo URL. |
| `FakeMovieRepository.SampleDetailAmounts` | feature/movies/presentaition/src/main/java/com/example/feature/movies/presentation/MovieDetailScreen.kt:548-589 | The sample budget shows as "$25,000,000" and the revenue as "$11,299,038". |
| `FakeMovieRepository.SampleDetailGenres` | feature/movies/presentaition/src/main/java/com/example/feature/movies/presentation/MovieDetailScreen.kt:548-589 | The sample genres show as "Western, Comedy, Crime". |
| `SearchMoviesUseCase.Invoke` | feature/movies/presentaition/src/main/java/com/example/feature/movies/presentation/fakedomain/SearchMoviesUseCase.kt:15-26 | A blank query gives an empty success. Otherwise the result is a success with the repository's movies. An `Exception` from the repository becomes a failure carrying it. An `Error` is not caught and escapes `invoke` unchanged. |
| `SearchMoviesUseCase.BlankQueryIgnoresRepository` | feature/movies/presentaition/src/main/java/com/example/feature/movies/presentation/fakedomain/SearchMoviesUseCase.kt:17-18 | A blank query never consults the repository: any two repositories give the same empty success. |
| `SearchMoviesUseCase.InvokeOverFakeRepository` | feature/movies/presentaition/src/main/java/com/example/feature/movies/presentation/fakedomain/SearchMoviesUseCase.kt:19-21 | Over the fake repository the use case never fails. It answers with the repository's search exactly for non-blank queries. |
| `SearchMoviesUseCase.BlankQueryHidesMatches` | feature/movies/presentaition/src/main/java/com/example/feature/movies/presentation/fakedomain/SearchMoviesUseCase.kt:17-18 | The query " " answers with no movie, although the repository would match "Jurassic World Rebirth". |
| `ListViewModel.LoadingState` | feature/movies/presentaition/src/main/java/com/example/feature/movies/presentation/MovieListViewModel.kt:42-47 | The first state of a lookup is loading, for that query, with no movies and no error. Nothing is carried over. |
| `ListViewModel.FailureMessage` | feature/movies/presentaition/src/main/java/com/example/feature/movies/presentation/MovieListViewModel.kt:63 | The message is the exception's, or "Unknown Error" when it has none. |
| `ListViewModel.ResultState` | feature/movies/presentaition/src/main/java/com/example/feature/movies/presentation/MovieListViewModel.kt:48-66 | The terminal state is not loading and is for the query. It has an error exactly on failure. On success it has exactly the use case's movies. |
| `ListViewModel.LookupEmitsTwoStates` | feature/movies/presentaition/src/main/java/com/example/feature/movies/presentation/MovieListViewModel.kt:41-67 | A lookup emits exactly two well-formed states for its query: loading, then one terminal state. Movies appear only on success. |
| `ListViewModel.MovieListViewModel.constructor` | feature/movies/presentaition/src/main/java/com/example/feature/movies/presentation/MovieListViewModel.kt:69-73 | The initial exposed state has query "", no movies, is not loading and has no error. |
| `ListViewModel.MovieListViewModel.OnSearchQueryChanged` | feature/movies/presentaition/src/main/java/com/example/feature/movies/presentation/MovieListViewModel.kt:75-78 | The query is stored verbatim. Nothing else changes. |
| `ListViewModel.MovieListViewModel.QuerySettled` | feature/movies/presentaition/src/main/java/com/example/feature/movies/presentation/MovieListViewModel.kt:35-47 | A settled query starts a lookup exactly when it differs from the last one looked up. Starting one shows its loading state and supersedes the pending lookup. |
| `ListViewModel.MovieListViewModel.LookupCompleted` | feature/movies/presentaition/src/main/java/com/example/feature/movies/presentation/MovieListViewModel.kt:39-67 | Only the latest pending lookup shows its result state. A superseded one changes nothing. |
| `ListViewModel.MovieListViewModel.ClearError` | feature/movies/presentaition/src/main/java/com/example/feature/movies/presentation/MovieListViewModel.kt:80-84 | `_uiState` loses its error and nothing else in it changes. The exposed state is unchanged. |
| `ListViewModel.MovieListViewModel.ClearShownError` | feature/movies/presentaition/src/main/java/com/example/feature/movies/presentation/MovieListViewModel.kt:80-84 | The intended clearing drops the error from the exposed state, changes nothing else and keeps the view-model valid. |
| `ListViewModel.FailedSearchThenClearError` | feature/movies/presentaition/src/main/java/com/example/feature/movies/presentation/MovieListViewModel.kt:80-84 | After a failed search and `clearError()`, the exposed error is still the failure message. |
| `ListViewModel.ClearedOfError` | feature/movies/presentaition/src/main/java/com/example/feature/movies/presentation/MovieListViewModel.kt:80-84 | Dropping the error keeps movies, query and loading flag. A well-formed state stays well-formed. |
| `ListViewModel.FailedSearchThenClearShownError` | feature/movies/presentaition/src/main/java/com/example/feature/movies/presentation/MovieListViewModel.kt:58-65 | With the intended clearing, a failed search followed by clearing leaves no error and only its query. |
| `DetailViewModel.Reduce` | feature/movies/presentaition/src/main/java/com/example/feature/movies/presentation/MovieDetailViewModel.kt:36-49 | The reducer never touches favourite, watchlist or similar-movie fields, and it is loading exactly on `Loading`. `Error` replaces the message whatever it was. `Success` stores the detail and keeps the message. |
| `DetailViewModel.ReduceIdempotent` | feature/movies/presentaition/src/main/java/com/example/feature/movies/presentation/MovieDetailViewModel.kt:36-49 | Applying the same event twice is applying it once. Reductions chain only in the corrected `MovieDetailStateHolder`; the code as written reduces every event over the untouched `_uiState`. |
| `DetailViewModel.LoadingLeavesNoTrace` | feature/movies/presentaition/src/main/java/com/example/feature/movies/presentation/MovieDetailViewModel.kt:38-48 | A `Loading` step before a result leaves no trace in the state. This holds where reductions chain, in the corrected `MovieDetailStateHolder`. |
| `DetailViewModel.DetailFlow` | feature/movies/presentaition/src/main/java/com/example/feature/movies/presentation/MovieDetailViewModel.kt:27-34 | The flow emits `Loading`, then exactly one result. It is `Success` exactly when the use case returned a success. A failure, or a thrown exception, gives `Error` with its message or "". |
| `DetailViewModel.DetailScreenSettles` | feature/movies/presentaition/src/main/java/com/example/feature/movies/presentation/MovieDetailViewModel.kt:27-49 | After the flow the screen is not loading. It shows the detail exactly when it shows no error. |
| `DetailViewModel.MovieDetailViewModel.constructor` | feature/movies/presentaition/src/main/java/com/example/feature/movies/presentation/MovieDetailViewModel.kt:50-54 | The initial exposed state is the default: no detail, not loading, no error. |
| `DetailViewModel.MovieDetailViewModel.Collect` | feature/movies/presentaition/src/main/java/com/example/feature/movies/presentation/MovieDetailViewModel.kt:35-49 | The exposed state is the reducer applied to the latest event and `_uiState`. |
| `DetailViewModel.MovieDetailViewModel.ClearError` | feature/movies/presentaition/src/main/java/com/example/feature/movies/presentation/MovieDetailViewModel.kt:55-59 | `_uiState` loses its error and nothing else changes. The exposed state stays as it was. |
| `DetailViewModel.FailedLoadThenClearError` | feature/movies/presentaition/src/main/java/com/example/feature/movies/presentation/MovieDetailViewModel.kt:55-59 | After a failed load and `clearError()`, the exposed error is still the failure's message. |
| `DetailViewModel.MovieDetailStateHolder.ClearError` | feature/movies/presentaition/src/main/java/com/example/feature/movies/presentation/MovieDetailViewModel.kt:55-59 | Clearing the held, shown state drops the error and nothing else. |
| `DetailViewModel.FailedLoadThenClearShownError` | feature/movies/presentaition/src/main/java/com/example/feature/movies/presentation/MovieDetailViewModel.kt:55-59 | With the intended state holder, a failed load followed by `clearError()` shows no error. |
| `DetailViewModel.ClearedErrorStaysCleared` | feature/movies/presentaition/src/main/java/com/example/feature/movies/presentation/MovieDetailViewModel.kt:38-48 | A cleared error stays cleared through `Loading` and `Success`, until a new `Error`. |

## Left out

- Logging, the 100 ms delay in `handleDeepLink` and the repository's simulated network delays are effects only and are not modelled.
- URI parsing by `android.net.Uri` is not modelled. A link arrives as scheme, host and path segments.
- `movieapp://movie/12345` under hierarchical parsing has host "movie" and path "12345". `handleDeepLink` does not handle that reading, since it tests the first path segment. `MovieNavHost.CustomSchemeExamples` states both readings.
- Declarative `navDeepLink` patterns, navigation wiring, dependency injection, `MainActivity`, the application class and the Compose screens are configuration or rendering only.
- `NetworkMonitor` is OS connectivity callbacks.
- `getFormattedRating` (`"%.1f"`) and every other floating-point formatting are not modelled. `voteAverage` and `popularity` are only copied.
- Timing is not modelled:
  - `debounce(300)` is a step where the query has settled (`QuerySettled`);
  - `flatMapLatest` cancellation is a generation counter (`LookupCompleted`);
  - the `stateIn` sharing policy and the exact moments of `combine`'s re-emission are left out.
- `GetMoviesUseCase`, which the list view-model calls, is not part of this model. Its outcome is a parameter of `LookupCompleted`.
- `ListViewModel.MovieListViewModel.LookupCompleted`: takes a `Result` only. A Kotlin `Error` that escapes the use case (`SearchMoviesUseCase.Invoke` giving `Threw`) ends the lookup flow, and that is not modelled.
- `GetMovieDetailUseCase` and `GetTrendingMoviesUseCase` are not modelled. They are one-line `try`/`Result` adapters like the search use case. The detail use case's outcome is a parameter of `DetailFlow`.
- The two mappers implement a feature-local `DomainToUiModel` interface (package `com.example.feature.movies.presentation.core`), which is not part of this model. The model assumes its `mapToUIList` is `map { mapToUi(it) }`, as in the core interface of the same name (DomainToUiModel.kt:7-10). `DomainToUiModel.MapToUiList` and `MovieUiMapper.MapToUiList` rest on that assumption.
- `MovieRepository` is an interface. The search use case takes its `searchMovies` as a function parameter that returns or throws.
- The domain records (`Movie`, `MovieDetail` and their parts) come from a module that is not part of this model. They are mirrored with exactly the fields the mappers read. `Collection.id` is taken to be non-null.
- The presentation `Movie` type is not part of this model. The list and similar-movie fields of the UI states hold `MovieUi`, the type of the sample data.
- The repository's declared results are `Movie` and `MovieDetail`, while its sample data are `MovieUi` and `MovieDetailUiModel`. The model uses the types of the sample data.
- `contains(ignoreCase = true)` is modelled with ASCII case folding only. `isBlank` uses the JVM whitespace characters, listed one by one. Digits for `toIntOrNull` are ASCII only.
- `String.format("%,d")` is modelled with ',' as the grouping separator and groups of three, the behaviour in an English locale.
- `Display.ReleaseYear`: requires an empty date or one of at least four characters. A shorter date makes `substring(0, 4)` throw, and that exception is not modelled. The same requires, for the same reason, is on `DetailUiModels.MovieDetailUiModel.ReleaseYear`, `DetailModels.MovieDetail.ReleaseYear` and `MovieUiModels.MovieUi.ReleaseYear`.
- `Display.FormattedRuntime`: the round trip is stated for non-negative runtimes only. A negative runtime prints with truncating division, as `Display.FormattedRuntimeNegative` shows, and is not read back.
- `Display.NamesString`: the read-back is stated for names without commas. A name holding ", " cannot be told apart from two names. The same premise is on `Display.JoinNames` and the eight record joiners: `GenresString`, `ProductionCompaniesString`, `ProductionCountriesString` and `SpokenLanguagesString` on `DetailModels.MovieDetail` and on `DetailUiModels.MovieDetailUiModel`. Their length clause holds for every name.

## Findings

| source | as written | input that shows it | evidently intended | confidence | as-written member | corrected member |
|---|---|---|---|---|---|---|
| feature/movies/presentaition/src/main/java/com/example/feature/movies/presentation/MovieDetailViewModel.kt:55-59 | `clearError()` nulls the error of `_uiState`. But `combine` rebuilds the exposed state from the latest flow value, and `Error(m)` sets the message again, so the shown error never goes away. | The detail use case fails with message "m". The screen shows it and calls `clearError()` (MovieDetailScreen.kt:85-95). The exposed `errorMessage` is still "m". | After `clearError()` the exposed state has no error. | not executed | `DetailViewModel.FailedLoadThenClearError` | `DetailViewModel.FailedLoadThenClearShownError` |
| feature/movies/presentaition/src/main/java/com/example/feature/movies/presentation/MovieListViewModel.kt:80-84 | `clearError()` updates `_uiState`, which the exposed `uiState` is never built from. The exposed `uiState` comes only from `movieQuery`. | A search fails with message "m". The screen shows it and calls `clearError()` (TrendingScreen.kt:42-52). The exposed `errorMessage` is still "m". | After `clearError()` the exposed state has no error and keeps its query. | not executed | `ListViewModel.FailedSearchThenClearError` | `ListViewModel.FailedSearchThenClearShownError` |

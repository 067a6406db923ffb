/**
 * The deep-link resolver of MovieNavHost.kt: `extractMovieIdFromSegment` and the
 * decision inside `handleDeepLink`, which sorts a link into one of three
 * families by scheme, host and path segments and then navigates at most once to
 * the movie-detail destination.
 *
 * The URI arrives already split into scheme, host and path segments (the
 * parsing done by `android.net.Uri` is not modelled); a null intent data is
 * `None`. The logging and the 100 ms delay are effects only and are left out.
 */
module MovieNavHost {
  import opened Wrappers
  import opened Kotlin

  const CUSTOM_SCHEME: string := "movieapp"
  const HTTPS_SCHEME: string := "https"
  const APP_HOST: string := "movieapp.com"
  const TMDB_HOST: string := "www.themoviedb.org"
  const MOVIE_SEGMENT: string := "movie"

  /** The parts of an `android.net.Uri` that the resolver reads. */
  datatype Uri = Uri(scheme: Option<string>, host: Option<string>, pathSegments: seq<string>)

  /** The navigation target `MovieDetailDestination(id)`. */
  datatype Destination = MovieDetailDestination(id: Int)

  /** Which branch of the `when` in `handleDeepLink` a link takes; the first match wins. */
  datatype LinkFamily = CustomScheme | AppLink | TmdbLink | Unhandled

  function Family(uri: Uri): LinkFamily {
    if uri.scheme == Some(CUSTOM_SCHEME) && |uri.pathSegments| > 0 && uri.pathSegments[0] == MOVIE_SEGMENT
    then CustomScheme
    else if uri.scheme == Some(HTTPS_SCHEME) && uri.host == Some(APP_HOST) then AppLink
    else if uri.scheme == Some(HTTPS_SCHEME) && uri.host == Some(TMDB_HOST) then TmdbLink
    else Unhandled
  }

  /**
   * `extractMovieIdFromSegment`: the part before the first '-' (or the whole
   * segment when it has none), read by `toIntOrNull`. The id part never holds a
   * '-', so the id is never negative.
   */
  function ExtractMovieIdFromSegment(segment: string): (r: Option<int>)
    ensures r.Some? ==> 0 <= r.value <= INT_MAX
    ensures |segment| > 0 && segment[0] == '-' ==> r.None?
  {
    var idPart := if '-' in segment then segment[..IndexOf(segment, '-')] else segment;
    assert |idPart| > 0 ==> idPart[0] != '-';
    ToIntOrNull(idPart)
  }

  /** A TMDB slug "<digits>" or "<digits>-<text>" yields the number, for every id in `Int` range. */
  lemma ExtractMovieIdFromSlug(id: nat, slug: string)
    requires id <= INT_MAX
    ensures ExtractMovieIdFromSegment(NatToString(id)) == Some(id)
    ensures ExtractMovieIdFromSegment(NatToString(id) + "-" + slug) == Some(id)
  {
    var digits := NatToString(id);
    assert '-' !in digits by { assert !IsDigit('-'); }
    ToIntOrNullOfIntToString(id);
    IndexOfAfterPrefix(digits, "-", slug, '-');
    assert (digits + "-" + slug)[..|digits|] == digits;
  }

  /** The three TMDB segment forms of one movie all yield its id. */
  lemma ExtractMovieIdExamples(bare: string, slugged: string, tagged: string)
    requires bare == "648878" && slugged == "648878-eddington" && tagged == "648878-eddington-western-comedy"
    ensures ExtractMovieIdFromSegment(bare) == Some(648878)
    ensures ExtractMovieIdFromSegment(slugged) == Some(648878)
    ensures ExtractMovieIdFromSegment(tagged) == Some(648878)
  {
    SplitAtDash(slugged, bare, "eddington");
    SplitAtDash(tagged, bare, "eddington-western-comedy");
    assert NatToString(648) == "648";
    NatToStringGroup(648, 8, 7, 8);
    assert NatToString(648878) == bare;
    ExtractMovieIdFromSlug(648878, "");
    ExtractMovieIdFromSplit(slugged, bare, "eddington", 648878);
    ExtractMovieIdFromSplit(tagged, bare, "eddington-western-comedy", 648878);
  }

  lemma SplitAtDash(segment: string, digits: string, slug: string)
    requires |segment| == |digits| + 1 + |slug|
    requires segment[..|digits|] == digits && segment[|digits|] == '-' && segment[|digits| + 1..] == slug
    ensures segment == digits + "-" + slug
  {
  }

  lemma ExtractMovieIdFromSplit(segment: string, digits: string, slug: string, id: nat)
    requires id <= INT_MAX && digits == NatToString(id) && segment == digits + "-" + slug
    ensures ExtractMovieIdFromSegment(segment) == Some(id)
  {
    ExtractMovieIdFromSlug(id, slug);
  }

  /**
   * The id is what `toIntOrNull` reads from the part before the first '-',
   * whatever follows: "007-bond" yields 7, and a part that is not a number
   * yields no id.
   */
  lemma ExtractMovieIdReadsPrefix(prefix: string, rest: string)
    requires '-' !in prefix
    ensures ExtractMovieIdFromSegment(prefix + "-" + rest) == ToIntOrNull(prefix)
    ensures ExtractMovieIdFromSegment(prefix) == ToIntOrNull(prefix)
  {
    IndexOfAfterPrefix(prefix, "-", rest, '-');
    assert (prefix + "-" + rest)[..|prefix|] == prefix;
  }

  /** An id beyond `Int.MAX_VALUE` yields no id rather than a wrapped one. */
  lemma ExtractMovieIdOutOfRange(n: nat, slug: string)
    requires n > INT_MAX
    ensures ExtractMovieIdFromSegment(NatToString(n)) == None
    ensures ExtractMovieIdFromSegment(NatToString(n) + "-" + slug) == None
  {
    var digits := NatToString(n);
    assert '-' !in digits by { assert !IsDigit('-'); }
    ToIntOrNullOverflow(n);
    IndexOfAfterPrefix(digits, "-", slug, '-');
    assert (digits + "-" + slug)[..|digits|] == digits;
  }

  /**
   * The movie id `handleDeepLink` navigates to for intent data `data`, if any.
   * Every link it accepts has "movie" as its first path segment and its id in
   * the second; a TMDB id is never negative.
   */
  function ResolveDeepLink(data: Option<Uri>): (r: Option<int>)
    ensures r.Some? ==> INT_MIN <= r.value <= INT_MAX
    ensures r.Some? ==> data.Some? && Family(data.value) != Unhandled
    ensures r.Some? ==> |data.value.pathSegments| >= 2 && data.value.pathSegments[0] == MOVIE_SEGMENT
    ensures r.Some? && Family(data.value) == TmdbLink ==> r.value >= 0
    ensures r.Some? && Family(data.value) != TmdbLink ==> ToIntOrNull(data.value.pathSegments[1]) == r
  {
    if data.None? then None
    else
      var segments := data.value.pathSegments;
      match Family(data.value)
      case CustomScheme =>
        if |segments| > 1 then ToIntOrNull(segments[1]) else None
      case AppLink =>
        if |segments| >= 2 && segments[0] == MOVIE_SEGMENT then ToIntOrNull(segments[1]) else None
      case TmdbLink =>
        if |segments| >= 2 && segments[0] == MOVIE_SEGMENT then ExtractMovieIdFromSegment(segments[1]) else None
      case Unhandled =>
        None
  }

  /** `movieapp:` links with "movie" first reach every `Int` id, whatever the host. */
  lemma CustomSchemeLink(host: Option<string>, id: int, rest: seq<string>)
    requires INT_MIN <= id <= INT_MAX
    ensures ResolveDeepLink(Some(Uri(Some(CUSTOM_SCHEME), host, [MOVIE_SEGMENT, IntToString(id)] + rest))) == Some(id)
  {
    ToIntOrNullOfIntToString(id);
  }

  /** `https://movieapp.com/movie/{id}` reaches every `Int` id. */
  lemma AppLinkRoundTrip(id: int, rest: seq<string>)
    requires INT_MIN <= id <= INT_MAX
    ensures ResolveDeepLink(Some(Uri(Some(HTTPS_SCHEME), Some(APP_HOST), [MOVIE_SEGMENT, IntToString(id)] + rest))) == Some(id)
  {
    ToIntOrNullOfIntToString(id);
  }

  /** `https://www.themoviedb.org/movie/{id}-{slug}` reaches every non-negative `Int` id. */
  lemma TmdbLinkRoundTrip(id: nat, slug: string, rest: seq<string>)
    requires id <= INT_MAX
    ensures ResolveDeepLink(Some(Uri(Some(HTTPS_SCHEME), Some(TMDB_HOST), [MOVIE_SEGMENT, NatToString(id) + "-" + slug] + rest))) == Some(id)
  {
    var segment := NatToString(id) + "-" + slug;
    ExtractMovieIdFromSlug(id, slug);
    ResolveTmdbLink(Uri(Some(HTTPS_SCHEME), Some(TMDB_HOST), [MOVIE_SEGMENT, segment] + rest));
  }

  lemma ResolveTmdbLink(uri: Uri)
    requires uri.scheme == Some(HTTPS_SCHEME) && uri.host == Some(TMDB_HOST)
    requires |uri.pathSegments| >= 2 && uri.pathSegments[0] == MOVIE_SEGMENT
    ensures ResolveDeepLink(Some(uri)) == ExtractMovieIdFromSegment(uri.pathSegments[1])
  {
    assert Family(uri) == TmdbLink;
  }

  /**
   * A `movieapp:` link whose first segment is "movie" opens exactly what
   * `toIntOrNull` reads from the second segment, and nothing without one.
   */
  lemma ResolveCustomSchemeLink(uri: Uri)
    requires uri.scheme == Some(CUSTOM_SCHEME) && |uri.pathSegments| > 0 && uri.pathSegments[0] == MOVIE_SEGMENT
    ensures |uri.pathSegments| >= 2 ==> ResolveDeepLink(Some(uri)) == ToIntOrNull(uri.pathSegments[1])
    ensures |uri.pathSegments| == 1 ==> ResolveDeepLink(Some(uri)) == None
  {
    assert Family(uri) == CustomScheme;
  }

  /**
   * An `https://movieapp.com` link opens exactly what `toIntOrNull` reads from
   * the second segment when the first is "movie", and nothing otherwise.
   */
  lemma ResolveAppLink(uri: Uri)
    requires uri.scheme == Some(HTTPS_SCHEME) && uri.host == Some(APP_HOST)
    ensures |uri.pathSegments| >= 2 && uri.pathSegments[0] == MOVIE_SEGMENT
            ==> ResolveDeepLink(Some(uri)) == ToIntOrNull(uri.pathSegments[1])
    ensures !(|uri.pathSegments| >= 2 && uri.pathSegments[0] == MOVIE_SEGMENT) ==> ResolveDeepLink(Some(uri)) == None
  {
    assert Family(uri) == AppLink;
  }

  /** In both `movieapp` families, a second segment that does not read as an `Int` opens nothing. */
  lemma UnreadableIdOpensNothing(uri: Uri)
    requires Family(uri) == CustomScheme || Family(uri) == AppLink
    requires |uri.pathSegments| >= 2 && ToIntOrNull(uri.pathSegments[1]) == None
    ensures ResolveDeepLink(Some(uri)) == None
  {
  }

  /** Null data, or any scheme and host outside the three families, never navigates. */
  lemma UnhandledLinks(uri: Uri)
    requires uri.scheme != Some(CUSTOM_SCHEME) && uri.scheme != Some(HTTPS_SCHEME)
    ensures ResolveDeepLink(None) == None
    ensures ResolveDeepLink(Some(uri)) == None
  {
  }

  /**
   * `movieapp://movie/12345` split as in the code's reading (no host, path
   * "movie/12345") opens movie 12345; split hierarchically (host "movie", path
   * "12345") it is not handled by this function, since the first branch tests
   * the first path segment.
   */
  lemma CustomSchemeExamples()
    ensures ResolveDeepLink(Some(Uri(Some("movieapp"), None, ["movie", "12345"]))) == Some(12345)
    ensures ResolveDeepLink(Some(Uri(Some("movieapp"), Some("movie"), ["12345"]))) == None
    ensures ResolveDeepLink(Some(Uri(Some("mailto"), None, []))) == None
    ensures ResolveDeepLink(Some(Uri(Some("movieapp"), None, ["movie", "abc"]))) == None
  {
    ToIntOrNullRejectsNonDigit("abc", 0);
    assert NatToString(12345) == "12345";
    CustomSchemeLink(None, 12345, []);
  }

  /** The navigation controller, seen as the list of destinations it was asked to open. */
  class NavController {
    var navigations: seq<Destination>

    constructor ()
      ensures navigations == []
    {
      navigations := [];
    }

    method Navigate(destination: Destination)
      modifies this
      ensures navigations == old(navigations) + [destination]
    {
      navigations := navigations + [destination];
    }
  }

  /**
   * `handleDeepLink`: the `when` over the link family, navigating at most once,
   * to exactly the id `ResolveDeepLink` gives.
   */
  method HandleDeepLink(data: Option<Uri>, navController: NavController)
    modifies navController
    ensures navController.navigations
         == old(navController.navigations)
          + (var r := ResolveDeepLink(data); if r.Some? then [MovieDetailDestination(r.value)] else [])
    ensures |navController.navigations| <= |old(navController.navigations)| + 1
  {
    if data.Some? {
      var uri := data.value;
      var pathSegments := uri.pathSegments;
      if uri.scheme == Some(CUSTOM_SCHEME) && |pathSegments| > 0 && pathSegments[0] == MOVIE_SEGMENT {
        var movieId := if |pathSegments| > 1 then ToIntOrNull(pathSegments[1]) else None;
        if movieId.Some? {
          navController.Navigate(MovieDetailDestination(movieId.value));
        }
      } else if uri.scheme == Some(HTTPS_SCHEME) && uri.host == Some(APP_HOST) {
        if |pathSegments| >= 2 && pathSegments[0] == MOVIE_SEGMENT {
          var movieId := ToIntOrNull(pathSegments[1]);
          if movieId.Some? {
            navController.Navigate(MovieDetailDestination(movieId.value));
          }
        }
      } else if uri.scheme == Some(HTTPS_SCHEME) && uri.host == Some(TMDB_HOST) {
        if |pathSegments| >= 2 && pathSegments[0] == MOVIE_SEGMENT {
          var movieId := ExtractMovieIdFromSegment(pathSegments[1]);
          if movieId.Some? {
            navController.Navigate(MovieDetailDestination(movieId.value));
          }
        }
      }
    }
  }
}

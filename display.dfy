/**
 * The display helpers that MovieDetailUiModel, MovieDetail and MovieUi each
 * define on their own fields: TMDB image URLs, the release year, the runtime as
 * "Xh Ym", budget and revenue as "$1,234" and ", "-joined name lists. The three
 * record types delegate to the definitions here; each helper has a partner that
 * reads its output back.
 */
module Display {
  import opened Wrappers
  import opened Kotlin

  const IMAGE_BASE_URL: string := "https://image.tmdb.org/t/p/"
  const UNKNOWN_YEAR: string := "Unknown"
  const NOT_DISCLOSED: string := "Not disclosed"

  /** `path?.let { "https://image.tmdb.org/t/p/$size$it" }` */
  function ImageUrl(size: string, path: Option<string>): (r: Option<string>)
    ensures r.None? <==> path.None?
    ensures r.Some? ==> |r.value| == |IMAGE_BASE_URL| + |size| + |path.value|
    ensures r.Some? ==> r.value[..|IMAGE_BASE_URL| + |size|] == IMAGE_BASE_URL + size
  {
    if path.Some? then Some(IMAGE_BASE_URL + size + path.value) else None
  }

  /** The path an image URL of the given size was built from. */
  function ImagePath(size: string, url: Option<string>): Option<string> {
    var prefix := IMAGE_BASE_URL + size;
    if url.Some? && |prefix| <= |url.value| && url.value[..|prefix|] == prefix
    then Some(url.value[|prefix|..])
    else None
  }

  /** The path, including its absence, is recoverable from the URL. */
  lemma ImagePathOfImageUrl(size: string, path: Option<string>)
    ensures ImagePath(size, ImageUrl(size, path)) == path
  {
    if path.Some? {
      var url := IMAGE_BASE_URL + size + path.value;
      assert url[|IMAGE_BASE_URL + size|..] == path.value;
    }
  }

  /**
   * `if (releaseDate.isNotEmpty()) releaseDate.substring(0, 4) else "Unknown"`.
   * `substring(0, 4)` throws on a non-empty date shorter than four characters.
   */
  function ReleaseYear(releaseDate: string): (r: string)
    requires releaseDate == "" || |releaseDate| >= 4
    ensures r == UNKNOWN_YEAR <==> releaseDate == ""
    ensures releaseDate != "" ==> |r| == 4 && r == releaseDate[..4]
  {
    if |releaseDate| > 0 then releaseDate[..4] else UNKNOWN_YEAR
  }

  /** For a date "YYYY-..." with a four-digit year, the release year is that year. */
  lemma ReleaseYearOfIsoDate(year: nat, rest: string)
    requires 1000 <= year <= 9999
    ensures |NatToString(year)| == 4
    ensures ReleaseYear(NatToString(year) + rest) == NatToString(year)
    ensures ToIntOrNull(ReleaseYear(NatToString(year) + rest)) == Some(year)
  {
    NatToStringFourDigits(year);
    var y := NatToString(year);
    assert (y + rest)[..4] == y;
    ToIntOrNullOfIntToString(year);
  }

  /**
   * `getFormattedRuntime()`: hours and minutes by Kotlin's truncating `/` and `%`;
   * the hours part is printed only when there is at least one whole hour.
   */
  function FormattedRuntime(runtime: int): (r: string)
    ensures |r| > 0 && r[|r| - 1] == 'm'
    ensures 'h' in r <==> runtime >= 60
  {
    var hours := TruncDiv(runtime, 60);
    var minutes := TruncRem(runtime, 60);
    NoLetterInIntToString(hours, 'h');
    NoLetterInIntToString(minutes, 'h');
    if hours > 0 then
      assert (IntToString(hours) + "h " + IntToString(minutes) + "m")[|IntToString(hours)|] == 'h';
      IntToString(hours) + "h " + IntToString(minutes) + "m"
    else
      IntToString(minutes) + "m"
  }

  /** A printed integer holds only a sign and digits. */
  lemma NoLetterInIntToString(x: int, c: char)
    requires c != '-' && !IsDigit(c)
    ensures c !in IntToString(x)
  {
    if x < 0 {
      assert IntToString(x) == "-" + NatToString(-x);
    }
  }

  /** Reads "Xh Ym" or "Ym" back as a number of minutes. */
  function ParseRuntime(text: string): Option<nat> {
    if |text| == 0 || text[|text| - 1] != 'm' then None
    else ParseHoursMinutes(text[..|text| - 1])
  }

  /** "Xh Y" or "Y" without the final 'm'. */
  function ParseHoursMinutes(body: string): Option<nat> {
    var h := IndexOf(body, 'h');
    if h == -1 then DecimalValue(body)
    else if h + 1 < |body| && body[h + 1] == ' ' then
      var hours := DecimalValue(body[..h]);
      var minutes := DecimalValue(body[h + 2..]);
      if hours.Some? && minutes.Some? then Some(60 * hours.value + minutes.value) else None
    else None
  }

  lemma ParseRuntimeDropsUnit(body: string)
    ensures ParseRuntime(body + "m") == ParseHoursMinutes(body)
  {
    assert (body + "m")[..|body|] == body;
  }

  /** "Ym" reads back as the value of the digits Y. */
  lemma ParseMinutesOnly(ms: string)
    requires 'h' !in ms
    ensures ParseRuntime(ms + "m") == DecimalValue(ms)
  {
    ParseRuntimeDropsUnit(ms);
  }

  lemma ParseHoursMinutesAt(body: string, h: nat, hv: nat, mv: nat)
    requires IndexOf(body, 'h') == h && h + 1 < |body| && body[h + 1] == ' '
    requires DecimalValue(body[..h]) == Some(hv) && DecimalValue(body[h + 2..]) == Some(mv)
    ensures ParseHoursMinutes(body) == Some(60 * hv + mv)
  {
  }

  lemma ParseHoursAndMinutes(hs: string, ms: string, hv: nat, mv: nat)
    requires 'h' !in hs && DecimalValue(hs) == Some(hv) && DecimalValue(ms) == Some(mv)
    ensures ParseRuntime(hs + "h " + ms + "m") == Some(60 * hv + mv)
  {
    var body := hs + "h " + ms;
    ParseRuntimeDropsUnit(body);
    IndexOfAfterPrefix(hs, "h ", ms, 'h');
    PrefixSuffix(body, hs, ms);
    ParseHoursMinutesAt(body, |hs|, hv, mv);
  }

  lemma PrefixSuffix(body: string, hs: string, ms: string)
    requires body == hs + "h " + ms
    ensures body[..|hs|] == hs && body[|hs| + 2..] == ms && body[|hs| + 1] == ' '
  {}

  /** For a non-negative runtime, hours and minutes are the Euclidean quotient and remainder by 60. */
  lemma FormattedRuntimeNonNegative(runtime: int)
    requires runtime >= 0
    ensures runtime >= 60 ==> FormattedRuntime(runtime)
                              == NatToString(runtime / 60) + "h " + NatToString(runtime % 60) + "m"
    ensures runtime < 60 ==> FormattedRuntime(runtime) == NatToString(runtime) + "m"
  {
    assert TruncDiv(runtime, 60) == runtime / 60;
    assert TruncRem(runtime, 60) == runtime % 60;
  }

  /** Every non-negative runtime is printed without loss: it reads back exactly. */
  lemma FormattedRuntimeRoundTrip(runtime: int)
    requires runtime >= 0
    ensures ParseRuntime(FormattedRuntime(runtime)) == Some(runtime)
  {
    FormattedRuntimeNonNegative(runtime);
    if runtime >= 60 {
      HoursAndMinutesRoundTrip(runtime / 60, runtime % 60);
    } else {
      MinutesRoundTrip(runtime);
    }
  }

  lemma HoursAndMinutesRoundTrip(hours: nat, minutes: nat)
    ensures ParseRuntime(NatToString(hours) + "h " + NatToString(minutes) + "m") == Some(60 * hours + minutes)
  {
    var hs := NatToString(hours);
    DecimalValueOfNatToString(hours);
    DecimalValueOfNatToString(minutes);
    assert 'h' !in hs by { NoLetterInIntToString(hours, 'h'); }
    ParseHoursAndMinutes(hs, NatToString(minutes), hours, minutes);
  }

  lemma MinutesRoundTrip(runtime: nat)
    requires runtime < 60
    ensures ParseRuntime(NatToString(runtime) + "m") == Some(runtime)
  {
    DecimalValueOfNatToString(runtime);
    assert 'h' !in NatToString(runtime) by { NoLetterInIntToString(runtime, 'h'); }
    ParseMinutesOnly(NatToString(runtime));
  }

  /** A negative runtime loses its hours: -75 minutes prints like -15. */
  lemma FormattedRuntimeNegative()
    ensures FormattedRuntime(-75) == "-15m" == FormattedRuntime(-15)
  {
    assert NatToString(15) == "15";
  }

  /**
   * `getFormattedBudget()` / `getFormattedRevenue()`: "Not disclosed" unless the
   * amount is positive, else "$" and the amount in `"%,d"` form.
   */
  function FormattedAmount(amount: int): (r: string)
    ensures amount <= 0 <==> r == NOT_DISCLOSED
    ensures amount > 0 ==> |r| > 1 && r[0] == '$' && DecimalValue(RemoveChar(r[1..], ',')) == Some(amount)
    ensures amount > 0 ==> r == "$" + GroupThousands(NatToString(amount))
    ensures amount > 0 ==> CountChar(r, ',') == (|NatToString(amount)| - 1) / 3
    ensures amount > 0 ==> GroupedByThousands(r[1..])
  {
    if amount > 0 then
      GroupedAmount(amount);
      "$" + FormatGrouped(amount)
    else
      NOT_DISCLOSED
  }

  /** The text of a positive amount: its digits grouped by thousands behind a '$'. */
  lemma GroupedAmount(amount: nat)
    requires amount > 0
    ensures var r := "$" + FormatGrouped(amount);
            && |r| > 1 && r[0] == '$' && r[1..] == GroupThousands(NatToString(amount))
            && DecimalValue(RemoveChar(r[1..], ',')) == Some(amount)
            && CountChar(r, ',') == (|NatToString(amount)| - 1) / 3
            && GroupedByThousands(r[1..])
  {
    var digits := NatToString(amount);
    assert ',' !in digits by { NoLetterInIntToString(amount, ','); }
    UngroupThousands(digits);
    GroupThousandsSeparators(digits);
    GroupThousandsPositions(digits);
    DecimalValueOfNatToString(amount);
    CountCharAppend("$", GroupThousands(digits), ',');
    assert ("$" + GroupThousands(digits))[1..] == GroupThousands(digits);
  }

  /**
   * `names.joinToString(", ")`. For a non-empty list of names without commas
   * the text reads back as exactly that list, in order, with one separator
   * between neighbours.
   */
  function NamesString(names: seq<string>): (r: string)
    ensures names == [] ==> r == ""
    ensures (|names| > 0 && forall i :: 0 <= i < |names| ==> ',' !in names[i])
        ==> (SplitNames(r) == names && CountChar(r, ',') == |names| - 1)
    ensures |names| > 0 ==> |r| == TotalLength(names) + 2 * (|names| - 1)
  {
    NamesStringShape(names);
    JoinToString(names, ", ")
  }

  lemma NamesStringShape(names: seq<string>)
    ensures |names| > 0 ==> |JoinToString(names, ", ")| == TotalLength(names) + 2 * (|names| - 1)
    ensures (|names| > 0 && forall i :: 0 <= i < |names| ==> ',' !in names[i])
        ==> (SplitNames(JoinToString(names, ", ")) == names
             && CountChar(JoinToString(names, ", "), ',') == |names| - 1)
  {
    if |names| > 0 {
      JoinToStringLength(names, ", ");
      if forall i :: 0 <= i < |names| ==> ',' !in names[i] {
        JoinToStringCommas(names);
        SplitNamesOfJoin(names);
      }
    }
  }

  /** Reads a ", "-separated list back: the text is cut at every comma and the blank after it is dropped. */
  function SplitNames(s: string): (r: seq<string>)
    ensures |r| > 0
    decreases |s|
  {
    var i := IndexOf(s, ',');
    if i < 0 then [s]
    else if i + 1 < |s| && s[i + 1] == ' ' then [s[..i]] + SplitNames(s[i + 2..])
    else [s[..i]] + SplitNames(s[i + 1..])
  }

  lemma {:induction false} SplitNamesOfJoin(names: seq<string>)
    requires |names| > 0 && forall i :: 0 <= i < |names| ==> ',' !in names[i]
    ensures SplitNames(JoinToString(names, ", ")) == names
  {
    if |names| > 1 {
      var tail := names[1..];
      var rest := JoinToString(tail, ", ");
      assert JoinToString(names, ", ") == names[0] + ", " + rest;
      SplitNamesAtSeparator(names[0], rest);
      assert forall i :: 0 <= i < |tail| ==> ',' !in tail[i] by {
        forall i | 0 <= i < |tail| ensures ',' !in tail[i] { assert tail[i] == names[i + 1]; }
      }
      SplitNamesOfJoin(tail);
      assert names == [names[0]] + tail;
    } else {
      assert JoinToString(names, ", ") == names[0];
    }
  }

  /** A comma-free first name and its separator split off as one item. */
  lemma SplitNamesAtSeparator(first: string, rest: string)
    requires ',' !in first
    ensures SplitNames(first + ", " + rest) == [first] + SplitNames(rest)
  {
    var s := first + ", " + rest;
    IndexOfAfterPrefix(first, ", ", rest, ',');
    assert s[|first| + 1] == ' ';
    assert s[..|first|] == first && s[|first| + 2..] == rest;
  }

  /** The label of each item, in list order. */
  function Names<T>(items: seq<T>, name: T -> string): (r: seq<string>)
    ensures |r| == |items| && forall i :: 0 <= i < |items| ==> r[i] == name(items[i])
  {
    seq(|items|, i requires 0 <= i < |items| => name(items[i]))
  }

  /**
   * `items.joinToString(", ") { name(it) }`: empty for no items; otherwise the
   * labels' characters and two more for each of the n - 1 separators. When no
   * label holds a comma, the text holds exactly n - 1 commas and reads back as
   * the labels in list order.
   */
  function JoinNames<T>(items: seq<T>, name: T -> string): (r: string)
    ensures items == [] ==> r == ""
    ensures |items| > 0 ==> |r| == TotalLength(Names(items, name)) + 2 * (|items| - 1)
    ensures (|items| > 0 && forall i :: 0 <= i < |items| ==> ',' !in name(items[i]))
        ==> CountChar(r, ',') == |items| - 1
    ensures (|items| > 0 && forall i :: 0 <= i < |items| ==> ',' !in name(items[i]))
        ==> (|SplitNames(r)| == |items| && forall i :: 0 <= i < |items| ==> SplitNames(r)[i] == name(items[i]))
  {
    var names := Names(items, name);
    assert (forall i :: 0 <= i < |items| ==> ',' !in name(items[i])) ==> forall i :: 0 <= i < |names| ==> ',' !in names[i];
    NamesString(names)
  }
}

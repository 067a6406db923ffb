/**
 * The pieces of the Kotlin standard library (JVM) that the app's string and
 * integer helpers rely on, written out so that their edge cases are explicit:
 * `Int`/`Long` ranges, truncating division, `Int.toString`, `String.toIntOrNull`,
 * `indexOf`, `isBlank`, `contains(ignoreCase = true)`, `joinToString` and the
 * `"%,d"` format.
 *
 * Stated assumptions: digits are the ASCII digits, case folding is ASCII, the
 * `"%,d"` grouping separator is ',' with groups of three.
 */
module Kotlin {
  import opened Wrappers

  const INT_MIN: int := -0x8000_0000
  const INT_MAX: int := 0x7FFF_FFFF
  const LONG_MIN: int := -0x8000_0000_0000_0000
  const LONG_MAX: int := 0x7FFF_FFFF_FFFF_FFFF

  /** Kotlin `Int` (32-bit) and `Long` (64-bit). */
  type Int = x: int | INT_MIN <= x <= INT_MAX
  type Long = x: int | LONG_MIN <= x <= LONG_MAX

  /**
   * A thrown `Throwable`: its (nullable) message, and whether it is an `Error`
   * (which `catch (e: Exception)` lets through) rather than an `Exception`.
   */
  datatype Throwable = Throwable(message: Option<string>, isError: bool := false)

  /** The outcome of calling code that may throw. */
  datatype Call<+T> = Returned(value: T) | Threw(exception: Throwable)

  /** `String?.orEmpty()` */
  function OrEmpty(s: Option<string>): string {
    if s.Some? then s.value else ""
  }

  // ---------------------------------------------------------------------------
  // Decimal digits

  predicate IsDigit(c: char) { '0' <= c <= '9' }

  function DigitValue(c: char): nat
    requires IsDigit(c)
  {
    (c as int) - ('0' as int)
  }

  function DigitChar(d: nat): (c: char)
    requires d < 10
    ensures IsDigit(c) && DigitValue(c) == d
  {
    (('0' as int) + d) as char
  }

  predicate AllDigits(s: string) {
    forall i :: 0 <= i < |s| ==> IsDigit(s[i])
  }

  /** The value of a non-empty run of decimal digits, most significant first. */
  function DecimalValue(s: string): (r: Option<nat>)
    ensures r.Some? <==> |s| > 0 && AllDigits(s)
  {
    if |s| == 0 || !IsDigit(s[|s| - 1]) then None
    else if |s| == 1 then Some(DigitValue(s[0]))
    else match DecimalValue(s[..|s| - 1])
      case None => None
      case Some(v) => Some(10 * v + DigitValue(s[|s| - 1]))
  }

  /** `n.toString()` for a non-negative number: its digits, without leading zeros. */
  function NatToString(n: nat): (r: string)
    ensures |r| > 0 && AllDigits(r)
    ensures |r| == 1 <==> n < 10
    ensures |r| > 1 ==> r[0] != '0'
  {
    if n < 10 then [DigitChar(n)] else NatToString(n / 10) + [DigitChar(n % 10)]
  }

  /** Reading back the digits of `NatToString(n)` gives `n`. */
  lemma {:induction false} DecimalValueOfNatToString(n: nat)
    ensures DecimalValue(NatToString(n)) == Some(n)
  {
    if n >= 10 {
      var p := NatToString(n / 10);
      DecimalValueOfNatToString(n / 10);
      assert (p + [DigitChar(n % 10)])[..|p|] == p;
    }
  }

  /** Four-digit numbers print as exactly four characters. */
  lemma {:induction false} NatToStringFourDigits(n: nat)
    requires 1000 <= n <= 9999
    ensures |NatToString(n)| == 4
  {
    assert |NatToString(n / 10)| == 3 by {
      assert |NatToString(n / 100)| == 2 by {
        assert |NatToString(n / 1000)| == 1;
      }
    }
  }

  /** `x.toString()` / a string template `"$x"` for an integer. */
  function IntToString(x: int): (r: string)
    ensures |r| > 0
    ensures x < 0 <==> r[0] == '-'
  {
    if x < 0 then "-" + NatToString(-x) else NatToString(x)
  }

  /**
   * `String.toIntOrNull()`: an optional leading '+' or '-', then at least one
   * decimal digit, and the value must fit in `Int`; otherwise null. It never throws.
   */
  function ToIntOrNull(s: string): (r: Option<int>)
    ensures r.Some? ==> INT_MIN <= r.value <= INT_MAX
    ensures r.Some? ==> AllDigits(s) || (|s| > 1 && (s[0] == '-' || s[0] == '+') && AllDigits(s[1..]))
    ensures r.Some? && r.value < 0 ==> |s| > 0 && s[0] == '-'
    ensures r.Some? && AllDigits(s) ==> DecimalValue(s) == Some(r.value)
    ensures r.Some? && !AllDigits(s) ==> DecimalValue(s[1..]) == Some(if s[0] == '-' then -r.value else r.value)
  {
    if |s| == 0 then None
    else if s[0] == '-' || s[0] == '+' then
      if |s| == 1 then None
      else match DecimalValue(s[1..])
        case None => None
        case Some(v) =>
          var w: int := v;
          var x := if s[0] == '-' then -w else w;
          if INT_MIN <= x <= INT_MAX then Some(x) else None
    else match DecimalValue(s)
      case None => None
      case Some(v) => if v <= INT_MAX then Some(v) else None
  }

  /** `toIntOrNull` reads back every `Int` that `toString` prints. */
  lemma ToIntOrNullOfIntToString(x: int)
    requires INT_MIN <= x <= INT_MAX
    ensures ToIntOrNull(IntToString(x)) == Some(x)
  {
    if x < 0 {
      ToIntOrNullOfNegative(-x);
    } else {
      ToIntOrNullOfNatToString(x);
    }
  }

  lemma ToIntOrNullOfNatToString(n: nat)
    requires n <= INT_MAX
    ensures ToIntOrNull(NatToString(n)) == Some(n)
  {
    var s := NatToString(n);
    DecimalValueOfNatToString(n);
    assert IsDigit(s[0]) && s[0] != '-' && s[0] != '+';
  }

  lemma ToIntOrNullOfNegative(n: nat)
    requires 0 < n <= -INT_MIN
    ensures ToIntOrNull("-" + NatToString(n)) == Some(-(n as int))
  {
    var s := "-" + NatToString(n);
    assert s[0] == '-' && |s| > 1 && s[1..] == NatToString(n);
    DecimalValueOfNatToString(n);
  }

  /** A run of `k` zero digits. */
  function Zeros(k: nat): (z: string)
    ensures |z| == k && AllDigits(z)
  {
    seq(k, _ => '0')
  }

  lemma {:induction false} DecimalValueZeros(k: nat)
    requires k > 0
    ensures DecimalValue(Zeros(k)) == Some(0)
  {
    if k > 1 {
      assert Zeros(k)[..k - 1] == Zeros(k - 1);
      DecimalValueZeros(k - 1);
    }
  }

  /** Leading zeros do not change the value of a run of digits. */
  lemma {:induction false} DecimalValueLeadingZeros(k: nat, s: string)
    requires |s| > 0 && AllDigits(s)
    ensures DecimalValue(Zeros(k) + s) == DecimalValue(s)
  {
    var t := Zeros(k) + s;
    if k > 0 {
      assert t[|t| - 1] == s[|s| - 1];
      if |s| == 1 {
        assert t[..|t| - 1] == Zeros(k);
        DecimalValueZeros(k);
      } else {
        assert t[..|t| - 1] == Zeros(k) + s[..|s| - 1];
        DecimalValueLeadingZeros(k, s[..|s| - 1]);
      }
    } else {
      assert t == s;
    }
  }

  /** Unsigned digits read as their value, whatever zeros lead them ("007" is 7). */
  lemma ToIntOrNullLeadingZeros(k: nat, n: nat)
    requires n <= INT_MAX
    ensures ToIntOrNull(Zeros(k) + NatToString(n)) == Some(n)
  {
    var s := Zeros(k) + NatToString(n);
    DecimalValueOfNatToString(n);
    DecimalValueLeadingZeros(k, NatToString(n));
    assert IsDigit(s[0]) && s[0] != '-' && s[0] != '+';
  }

  /** A leading '+' is accepted and changes nothing ("+5" is 5). */
  lemma ToIntOrNullPlus(k: nat, n: nat)
    requires n <= INT_MAX
    ensures ToIntOrNull("+" + Zeros(k) + NatToString(n)) == Some(n)
  {
    var digits := Zeros(k) + NatToString(n);
    var s := "+" + digits;
    assert s[0] == '+' && s[1..] == digits;
    DecimalValueOfNatToString(n);
    DecimalValueLeadingZeros(k, NatToString(n));
    assert "+" + Zeros(k) + NatToString(n) == s;
  }

  /** A leading '-' negates, down to `Int.MIN_VALUE` ("-0" is 0). */
  lemma ToIntOrNullMinus(k: nat, n: nat)
    requires n <= -INT_MIN
    ensures ToIntOrNull("-" + Zeros(k) + NatToString(n)) == Some(-(n as int))
  {
    var s := "-" + Zeros(k) + NatToString(n);
    assert s[1..] == Zeros(k) + NatToString(n);
    DecimalValueOfNatToString(n);
    DecimalValueLeadingZeros(k, NatToString(n));
  }

  /** Valid Kotlin spellings beyond `toString`'s own: a '+', leading zeros, "-0"; and a word reads as null. */
  lemma ToIntOrNullExamples(plusFive: string, zeroZeroSeven: string, minusZero: string, word: string)
    requires plusFive == "+5" && zeroZeroSeven == "007" && minusZero == "-0" && word == "abc"
    ensures ToIntOrNull(plusFive) == Some(5)
    ensures ToIntOrNull(zeroZeroSeven) == Some(7)
    ensures ToIntOrNull(minusZero) == Some(0)
    ensures ToIntOrNull(word) == None
  {
    assert NatToString(5) == "5" && NatToString(7) == "7" && NatToString(0) == "0";
    assert Zeros(0) == "" && Zeros(2) == "00";
    ToIntOrNullPlus(0, 5);
    assert "+" + Zeros(0) + NatToString(5) == plusFive;
    ToIntOrNullLeadingZeros(2, 7);
    assert Zeros(2) + NatToString(7) == zeroZeroSeven;
    ToIntOrNullMinus(0, 0);
    assert "-" + Zeros(0) + NatToString(0) == minusZero;
    ToIntOrNullRejectsNonDigit(word, 0);
  }

  /** Below `Int.MIN_VALUE` a negative number gives null. */
  lemma ToIntOrNullMinusOverflow(n: nat)
    requires n > -INT_MIN
    ensures ToIntOrNull("-" + NatToString(n)) == None
  {
    var s := "-" + NatToString(n);
    assert s[1..] == NatToString(n);
    DecimalValueOfNatToString(n);
  }

  /** A character that is neither a digit nor a leading sign makes the text unreadable. */
  lemma ToIntOrNullRejectsNonDigit(s: string, i: nat)
    requires i < |s| && !IsDigit(s[i])
    requires i == 0 ==> s[0] != '-' && s[0] != '+'
    ensures ToIntOrNull(s) == None
  {
    if i > 0 {
      assert s[1..][i - 1] == s[i];
    }
  }

  /** Digits that do not fit in `Int` give null. */
  lemma ToIntOrNullOverflow(n: nat)
    requires n > INT_MAX
    ensures ToIntOrNull(NatToString(n)) == None
  {
    DecimalValueOfNatToString(n);
  }

  // ---------------------------------------------------------------------------
  // Searching in strings

  /** `s.indexOf(c)`: the first index holding `c`, or -1. */
  function IndexOf(s: string, c: char): (r: int)
    ensures -1 <= r < |s|
    ensures r == -1 <==> c !in s
    ensures 0 <= r ==> s[r] == c && c !in s[..r]
  {
    if |s| == 0 then -1
    else if s[0] == c then 0
    else
      var k := IndexOf(s[1..], c);
      assert k >= 0 ==> s[..k + 1] == [s[0]] + s[1..][..k];
      if k == -1 then -1 else k + 1
  }

  /** The first `c` after a prefix free of `c` is found right after that prefix. */
  lemma IndexOfAfterPrefix(a: string, mid: string, b: string, c: char)
    requires c !in a && |mid| > 0 && mid[0] == c
    ensures IndexOf(a + mid + b, c) == |a|
  {
    var s := a + mid + b;
    assert s[|a|] == c;
    assert s[..|a|] == a;
  }

  /** Number of occurrences of `c` in `s`. */
  function CountChar(s: string, c: char): (n: nat)
    ensures n <= |s|
    ensures n == 0 <==> c !in s
  {
    if |s| == 0 then 0
    else (if s[0] == c then 1 else 0) + CountChar(s[1..], c)
  }

  lemma {:induction false} CountCharAppend(a: string, b: string, c: char)
    ensures CountChar(a + b, c) == CountChar(a, c) + CountChar(b, c)
  {
    if |a| > 0 {
      assert (a + b)[1..] == a[1..] + b;
      CountCharAppend(a[1..], b, c);
    } else {
      assert a + b == b;
    }
  }

  // ---------------------------------------------------------------------------
  // Truncating integer division

  /** Kotlin's `a / b` on `Int`: rounds toward zero (Dafny's `/` is Euclidean). */
  function TruncDiv(a: int, b: int): (q: int)
    requires b > 0
    ensures a >= 0 ==> q == a / b
    ensures a < 0 ==> q <= 0 && a <= b * q < a + b
  {
    if a >= 0 then a / b else -((-a) / b)
  }

  /** Kotlin's `a % b` on `Int`: takes the sign of `a`. */
  function TruncRem(a: int, b: int): (r: int)
    requires b > 0
    ensures a == b * TruncDiv(a, b) + r
    ensures a >= 0 ==> 0 <= r < b
    ensures a < 0 ==> -b < r <= 0
  {
    a - b * TruncDiv(a, b)
  }

  // ---------------------------------------------------------------------------
  // Whitespace and case

  /** `Char.isWhitespace()` on the JVM: `Character.isWhitespace || Character.isSpaceChar`. */
  predicate IsWhitespace(c: char) {
    || c == ' '
    || '\t' <= c <= '\r'
    || '\U{1C}' <= c <= '\U{1F}'
    || c == '\U{A0}' || c == '\U{1680}'
    || '\U{2000}' <= c <= '\U{200A}'
    || c == '\U{2028}' || c == '\U{2029}' || c == '\U{202F}' || c == '\U{205F}' || c == '\U{3000}'
  }

  /** `CharSequence.isBlank()`: empty, or whitespace only. */
  predicate IsBlank(s: string) {
    forall i :: 0 <= i < |s| ==> IsWhitespace(s[i])
  }

  /** Lower-case an ASCII letter; every other character is left alone. */
  function LowerAscii(c: char): (d: char)
    ensures 'A' <= c <= 'Z' ==> 'a' <= d <= 'z'
    ensures !('A' <= c <= 'Z') ==> d == c
  {
    if 'A' <= c <= 'Z' then ((c as int) + 32) as char else c
  }

  /** `Char.equals(other, ignoreCase = true)`, restricted to ASCII folding. */
  predicate EqualsIgnoreCase(a: char, b: char) {
    LowerAscii(a) == LowerAscii(b)
  }

  /** `s.regionMatches(start, q, 0, q.length, ignoreCase = true)` */
  predicate RegionMatchesIgnoreCase(s: string, start: nat, q: string)
    requires start + |q| <= |s|
  {
    forall k :: 0 <= k < |q| ==> EqualsIgnoreCase(s[start + k], q[k])
  }

  /** `s.contains(q, ignoreCase = true)` */
  predicate ContainsIgnoreCase(s: string, q: string) {
    exists i :: 0 <= i <= |s| - |q| && RegionMatchesIgnoreCase(s, i, q)
  }

  /** Two strings that differ only in the case of their letters. */
  predicate SameIgnoringCase(a: string, b: string) {
    |a| == |b| && forall k :: 0 <= k < |a| ==> EqualsIgnoreCase(a[k], b[k])
  }

  /** Every string contains the empty string. */
  lemma ContainsEmpty(s: string)
    ensures ContainsIgnoreCase(s, "")
  {
    assert RegionMatchesIgnoreCase(s, 0, "");
  }

  /** Whether `s` contains `q` ignoring case depends on `q` only up to case. */
  lemma ContainsIgnoreCaseRespectsCase(s: string, q1: string, q2: string)
    requires SameIgnoringCase(q1, q2)
    ensures ContainsIgnoreCase(s, q1) <==> ContainsIgnoreCase(s, q2)
  {
    if ContainsIgnoreCase(s, q1) {
      var i :| 0 <= i <= |s| - |q1| && RegionMatchesIgnoreCase(s, i, q1);
      assert RegionMatchesIgnoreCase(s, i, q2);
    }
    if ContainsIgnoreCase(s, q2) {
      var i :| 0 <= i <= |s| - |q2| && RegionMatchesIgnoreCase(s, i, q2);
      assert RegionMatchesIgnoreCase(s, i, q1);
    }
  }

  // ---------------------------------------------------------------------------
  // joinToString

  /** `items.joinToString(separator)`: the items in order, a separator between each two. */
  function JoinToString(items: seq<string>, separator: string := ", "): string {
    if |items| == 0 then ""
    else if |items| == 1 then items[0]
    else items[0] + separator + JoinToString(items[1..], separator)
  }

  /** Joining two non-empty lists puts one separator between their joins. */
  lemma {:induction false} JoinToStringAppend(a: seq<string>, b: seq<string>, separator: string)
    requires |a| > 0 && |b| > 0
    ensures JoinToString(a + b, separator)
         == JoinToString(a, separator) + separator + JoinToString(b, separator)
  {
    if |a| > 1 {
      assert (a + b)[1..] == a[1..] + b;
      JoinToStringAppend(a[1..], b, separator);
    } else {
      assert (a + b)[1..] == b;
    }
  }

  /** When no item holds a ',', a ", "-join holds exactly n - 1 of them: one per separator. */
  lemma {:induction false} JoinToStringCommas(items: seq<string>)
    requires |items| > 0
    requires forall i :: 0 <= i < |items| ==> ',' !in items[i]
    ensures CountChar(JoinToString(items, ", "), ',') == |items| - 1
  {
    assert CountChar(items[0], ',') == 0 by { assert ',' !in items[0]; }
    if |items| > 1 {
      var tail := items[1..];
      assert forall i :: 0 <= i < |tail| ==> ',' !in tail[i] by {
        forall i | 0 <= i < |tail| ensures ',' !in tail[i] { assert tail[i] == items[i + 1]; }
      }
      var rest := JoinToString(tail, ", ");
      JoinToStringCommas(tail);
      CountCharAppend(items[0] + ", ", rest, ',');
      CountCharAppend(items[0], ", ", ',');
      assert CountChar(", ", ',') == 1;
      assert JoinToString(items, ", ") == items[0] + ", " + rest;
    }
  }

  /** Length of a join: the items' lengths plus n - 1 separators. */
  function TotalLength(items: seq<string>): nat {
    if |items| == 0 then 0 else |items[0]| + TotalLength(items[1..])
  }

  lemma {:induction false} JoinToStringLength(items: seq<string>, separator: string)
    requires |items| > 0
    ensures |JoinToString(items, separator)| == TotalLength(items) + (|items| - 1) * |separator|
  {
    if |items| > 1 {
      JoinToStringLength(items[1..], separator);
    }
  }

  // ---------------------------------------------------------------------------
  // String.format("%,d", x)

  /** Insert ',' between groups of three digits, counted from the right. */
  function GroupThousands(digits: string): string
    decreases |digits|
  {
    if |digits| <= 3 then digits
    else GroupThousands(digits[..|digits| - 3]) + "," + digits[|digits| - 3..]
  }

  /** One more group of three digits adds one separator in front of it. */
  lemma GroupThousandsStep(hi: string, lo: string)
    requires |hi| > 0 && |lo| == 3
    ensures GroupThousands(hi + lo) == GroupThousands(hi) + "," + lo
  {
    assert (hi + lo)[..|hi|] == hi && (hi + lo)[|hi|..] == lo;
  }

  /** Three more low digits print as three more characters after the high part. */
  lemma NatToStringGroup(hi: nat, d2: nat, d1: nat, d0: nat)
    requires hi > 0 && d2 < 10 && d1 < 10 && d0 < 10
    ensures NatToString(hi * 1000 + d2 * 100 + d1 * 10 + d0)
         == NatToString(hi) + [DigitChar(d2), DigitChar(d1), DigitChar(d0)]
  {
    var n := hi * 1000 + d2 * 100 + d1 * 10 + d0;
    assert n / 10 == hi * 100 + d2 * 10 + d1 && n % 10 == d0;
    assert (hi * 100 + d2 * 10 + d1) / 10 == hi * 10 + d2 && (hi * 100 + d2 * 10 + d1) % 10 == d1;
    assert (hi * 10 + d2) / 10 == hi && (hi * 10 + d2) % 10 == d2;
    var a := NatToString(hi * 10 + d2);
    assert a == NatToString(hi) + [DigitChar(d2)];
    var b := NatToString(hi * 100 + d2 * 10 + d1);
    assert b == a + [DigitChar(d1)];
    assert NatToString(n) == b + [DigitChar(d0)];
  }

  /**
   * Counted from the right end, every fourth character is a ',' and no other
   * one is: the text is cut into groups of three.
   */
  predicate GroupedByThousands(g: string) {
    forall i :: 0 <= i < |g| ==> (g[i] == ',' <==> (|g| - i) % 4 == 0)
  }

  /** Where the separators of a grouped number go. */
  lemma {:induction false} GroupThousandsPositions(digits: string)
    requires |digits| > 0 && ',' !in digits
    ensures |GroupThousands(digits)| == |digits| + (|digits| - 1) / 3
    ensures GroupedByThousands(GroupThousands(digits))
  {
    var g := GroupThousands(digits);
    if |digits| <= 3 {
      forall i | 0 <= i < |g| ensures g[i] == ',' <==> (|g| - i) % 4 == 0 {
        assert g[i] in digits;
      }
    } else {
      var hi, lo := SplitLastGroup(digits);
      GroupThousandsPositions(hi);
      var gh := GroupThousands(hi);
      assert g == gh + "," + lo;
      forall i | 0 <= i < |g| ensures g[i] == ',' <==> (|g| - i) % 4 == 0 {
        if i < |gh| {
          assert g[i] == gh[i] && |g| - i == (|gh| - i) + 4;
        } else if i > |gh| {
          assert g[i] == lo[i - |gh| - 1];
          assert g[i] in lo;
        }
      }
    }
  }

  /** `String.format("%,d", x)` */
  function FormatGrouped(x: int): (r: string)
    ensures |r| > 0
  {
    if x < 0 then "-" + GroupThousands(NatToString(-x)) else GroupThousands(NatToString(x))
  }

  /** `s` with every `c` taken out. */
  function RemoveChar(s: string, c: char): (r: string)
    ensures c !in r
    ensures |r| <= |s|
  {
    if |s| == 0 then []
    else (if s[0] == c then [] else [s[0]]) + RemoveChar(s[1..], c)
  }

  lemma {:induction false} RemoveCharAppend(a: string, b: string, c: char)
    ensures RemoveChar(a + b, c) == RemoveChar(a, c) + RemoveChar(b, c)
  {
    if |a| > 0 {
      assert (a + b)[1..] == a[1..] + b;
      RemoveCharAppend(a[1..], b, c);
    } else {
      assert a + b == b;
    }
  }

  lemma {:induction false} RemoveCharAbsent(s: string, c: char)
    requires c !in s
    ensures RemoveChar(s, c) == s
  {
    if |s| > 0 {
      RemoveCharAbsent(s[1..], c);
    }
  }

  /** Cutting the last three characters off a comma-free string leaves two comma-free parts. */
  lemma SplitLastGroup(digits: string) returns (hi: string, lo: string)
    requires |digits| > 3 && ',' !in digits
    ensures hi == digits[..|digits| - 3] && lo == digits[|digits| - 3..]
    ensures hi + lo == digits && ',' !in hi && ',' !in lo
  {
    hi, lo := digits[..|digits| - 3], digits[|digits| - 3..];
    assert hi + lo == digits;
  }

  /** Dropping the separators from a grouped number gives back its digits. */
  lemma {:induction false} UngroupThousands(digits: string)
    requires ',' !in digits
    ensures RemoveChar(GroupThousands(digits), ',') == digits
  {
    if |digits| <= 3 {
      RemoveCharAbsent(digits, ',');
    } else {
      var hi, lo := SplitLastGroup(digits);
      var g := GroupThousands(hi);
      assert GroupThousands(digits) == g + "," + lo;
      UngroupThousands(hi);
      RemoveCharAppend(g + ",", lo, ',');
      RemoveCharAppend(g, ",", ',');
      RemoveCharAbsent(lo, ',');
      assert RemoveChar(",", ',') == [];
      assert RemoveChar(g + ",", ',') == hi;
    }
  }

  /** A run of n digits gets exactly (n - 1) / 3 separators. */
  lemma {:induction false} GroupThousandsSeparators(digits: string)
    requires |digits| > 0 && ',' !in digits
    ensures CountChar(GroupThousands(digits), ',') == (|digits| - 1) / 3
  {
    if |digits| > 3 {
      var hi, lo := SplitLastGroup(digits);
      GroupThousandsSeparators(hi);
      CountCharAppend(GroupThousands(hi) + ",", lo, ',');
      CountCharAppend(GroupThousands(hi), ",", ',');
    }
  }
}

/**
 * Log levels and message-number ranges. A message number is classified by the
 * greatest range bound not above it: 0-999 TRACE, 1000-1999 DEBUG, ...,
 * 6000 and above PANIC, and a negative number is "UNKNOWN". The same tables
 * serve the messenger and appmessage packages.
 */
module Levels {

  import opened Wrappers

  const LevelTraceInt: int := -8
  const LevelDebugInt: int := -4
  const LevelInfoInt: int := 0
  const LevelWarnInt: int := 4
  const LevelErrorInt: int := 8
  const LevelFatalInt: int := 12
  const LevelPanicInt: int := 16

  /** The level names, from the least to the most severe. */
  const LevelNames: seq<string> := ["TRACE", "DEBUG", "INFO", "WARN", "ERROR", "FATAL", "PANIC"]

  /** The slog levels, in the same order as LevelNames. */
  const LevelInts: seq<int> :=
    [LevelTraceInt, LevelDebugInt, LevelInfoInt, LevelWarnInt, LevelErrorInt, LevelFatalInt, LevelPanicInt]

  /** The lower bound of each message-number range and the level it stands for. */
  const IDLevelRangesAsString: map<int, string> :=
    map[0 := "TRACE", 1000 := "DEBUG", 2000 := "INFO", 3000 := "WARN",
        4000 := "ERROR", 5000 := "FATAL", 6000 := "PANIC"]

  const LevelToTextMap: map<int, string> :=
    map[LevelDebugInt := "DEBUG", LevelErrorInt := "ERROR", LevelFatalInt := "FATAL",
        LevelInfoInt := "INFO", LevelPanicInt := "PANIC", LevelTraceInt := "TRACE",
        LevelWarnInt := "WARN"]

  const TextToLevelMap: map<string, int> :=
    map["DEBUG" := LevelDebugInt, "ERROR" := LevelErrorInt, "FATAL" := LevelFatalInt,
        "INFO" := LevelInfoInt, "PANIC" := LevelPanicInt, "TRACE" := LevelTraceInt,
        "WARN" := LevelWarnInt]

  /** Every field a message can carry, in the order of the message structure. */
  const AllMessageFields: seq<string> :=
    ["time", "level", "id", "text", "code", "reason", "status", "duration", "location", "errors", "details"]

  const UnknownLevel: string := "UNKNOWN"

  /** The two level maps are inverse to each other and cover the seven levels. */
  lemma LevelMapsInverse()
    ensures forall k :: k in LevelToTextMap <==> k in LevelInts
    ensures forall t :: t in TextToLevelMap <==> t in LevelNames
    ensures forall i :: 0 <= i < 7 ==>
      LevelToTextMap[LevelInts[i]] == LevelNames[i] && TextToLevelMap[LevelNames[i]] == LevelInts[i]
  {
    forall i | 0 <= i < 7
      ensures LevelToTextMap[LevelInts[i]] == LevelNames[i] && TextToLevelMap[LevelNames[i]] == LevelInts[i]
    {
      assert i == 0 || i == 1 || i == 2 || i == 3 || i == 4 || i == 5 || i == 6;
    }
  }

  /** Range i (0..6) starts at 1000 * i and names the i-th level; there are no other ranges. */
  lemma RangeBoundsNameLevels()
    ensures forall k :: k in IDLevelRangesAsString <==> 0 <= k <= 6000 && k % 1000 == 0
    ensures forall i :: 0 <= i < 7 ==> IDLevelRangesAsString[1000 * i] == LevelNames[i]
  {
    forall k | 0 <= k <= 6000 && k % 1000 == 0 ensures k in IDLevelRangesAsString {
      var i := k / 1000;
      assert k == 1000 * i;
      assert i == 0 || i == 1 || i == 2 || i == 3 || i == 4 || i == 5 || i == 6;
    }
    forall i | 0 <= i < 7 ensures IDLevelRangesAsString[1000 * i] == LevelNames[i] {
      assert i == 0 || i == 1 || i == 2 || i == 3 || i == 4 || i == 5 || i == 6;
    }
  }

  // ---------------------------------------------------------------------------
  // Classifying a message number
  // ---------------------------------------------------------------------------

  predicate StrictlyDescending(s: seq<int>)
  {
    forall i, j :: 0 <= i < j < |s| ==> s[i] > s[j]
  }

  /** The first bound of `sorted` that is at most n, the one getLevel's loop stops at. */
  function FirstAtMost(sorted: seq<int>, n: int): (r: Option<int>)
    ensures r.Some? ==> r.value in sorted && r.value <= n
    ensures r.None? <==> forall x :: x in sorted ==> x > n
  {
    if sorted == [] then None
    else if n >= sorted[0] then Some(sorted[0])
    else
      var r := FirstAtMost(sorted[1..], n);
      assert forall x :: x in sorted <==> x == sorted[0] || x in sorted[1..];
      r
  }

  /** On a descending list the first bound at most n is the greatest such bound. */
  lemma {:induction false} FirstAtMostIsGreatest(sorted: seq<int>, n: int)
    requires StrictlyDescending(sorted)
    ensures FirstAtMost(sorted, n).Some? ==>
      forall x :: x in sorted && x <= n ==> x <= FirstAtMost(sorted, n).value
  {
    if sorted != [] && n < sorted[0] {
      assert StrictlyDescending(sorted[1..]);
      FirstAtMostIsGreatest(sorted[1..], n);
      assert forall x :: x in sorted <==> x == sorted[0] || x in sorted[1..];
    }
  }

  /** The level name getLevel returns given the ranges and their bounds in descending order. */
  function LevelFromSorted(ranges: map<int, string>, sorted: seq<int>, n: int): (name: string)
    requires forall x :: x in sorted ==> x in ranges
    ensures name == UnknownLevel || exists k :: k in ranges && k <= n && ranges[k] == name
  {
    match FirstAtMost(sorted, n)
    case None => UnknownLevel
    case Some(k) => ranges[k]
  }

  /** getLevel's loop: the first bound (from the top) that the number reaches. */
  method FindLevel(ranges: map<int, string>, sorted: seq<int>, n: int) returns (name: string)
    requires forall x :: x in sorted ==> x in ranges
    ensures name == LevelFromSorted(ranges, sorted, n)
  {
    var i := 0;
    while i < |sorted|
      invariant 0 <= i <= |sorted|
      invariant FirstAtMost(sorted, n) == FirstAtMost(sorted[i..], n)
    {
      if n >= sorted[i] {
        return ranges[sorted[i]];
      }
      assert sorted[i..][1..] == sorted[i + 1..];
      i := i + 1;
    }
    return UnknownLevel;
  }

  lemma HeadIn(s: seq<int>)
    requires s != []
    ensures s[0] in s
  {
  }

  /** Two descending lists of the same numbers are the same list. */
  lemma {:induction false} DescendingUnique(a: seq<int>, b: seq<int>)
    requires StrictlyDescending(a) && StrictlyDescending(b)
    requires forall x :: x in a <==> x in b
    ensures a == b
    decreases |a|
  {
    if a == [] || b == [] {
      if a != [] {
        HeadIn(a);
        assert false;
      }
      if b != [] {
        HeadIn(b);
        assert false;
      }
    } else {
      assert a[0] in a && b[0] in b;
      assert a[0] == b[0];
      assert StrictlyDescending(a[1..]) && StrictlyDescending(b[1..]);
      forall x ensures x in a[1..] <==> x in b[1..] {
        assert x in a <==> x == a[0] || x in a[1..];
        assert x in b <==> x == b[0] || x in b[1..];
        assert a[0] !in a[1..] && b[0] !in b[1..];
      }
      DescendingUnique(a[1..], b[1..]);
    }
  }

  /** The bounds of IDLevelRangesAsString, greatest first. */
  const SortedRangeBounds: seq<int> := [6000, 5000, 4000, 3000, 2000, 1000, 0]

  lemma {:induction false} FirstAtMostBounds(k: nat, n: int)
    requires k <= 6
    ensures FirstAtMost(SortedRangeBounds[6 - k..], n)
      == if n < 0 then None else Some(1000 * (if n / 1000 >= k then k else n / 1000))
  {
    var s := SortedRangeBounds[6 - k..];
    assert s[0] == 1000 * k;
    if n >= 1000 * k {
      assert n / 1000 >= k;
    } else if k > 0 {
      assert s[1..] == SortedRangeBounds[6 - (k - 1)..];
      FirstAtMostBounds(k - 1, n);
      assert n < 0 || n / 1000 <= k - 1;
    } else {
      assert s == [0];
      assert s[1..] == [];
    }
  }

  /**
   * Whatever order a descending sort started from, the bounds come out as
   * SortedRangeBounds, and a message number maps to the level of its
   * thousand (capped at PANIC); a negative number is "UNKNOWN".
   */
  lemma LevelOfNumber(sorted: seq<int>, n: int)
    requires StrictlyDescending(sorted)
    requires forall x :: x in sorted <==> x in IDLevelRangesAsString
    ensures sorted == SortedRangeBounds
    ensures LevelFromSorted(IDLevelRangesAsString, sorted, n)
      == if n < 0 then UnknownLevel else LevelNames[if n >= 6000 then 6 else n / 1000]
  {
    DescendingUnique(sorted, SortedRangeBounds);
    FirstAtMostBounds(6, n);
    assert SortedRangeBounds[0..] == SortedRangeBounds;
    RangeBoundsNameLevels();
  }

  /** The level of a message number: its thousand's level (capped at PANIC), "UNKNOWN" below 0. */
  function LevelForNumber(n: int): (name: string)
    ensures name == UnknownLevel <==> n < 0
    ensures n >= 0 ==> name in TextToLevelMap
  {
    if n < 0 then UnknownLevel else LevelNames[if n >= 6000 then 6 else n / 1000]
  }

  /** Inserting a new number into a descending list at its place. */
  function InsertDescending(s: seq<int>, x: int): (r: seq<int>)
    requires StrictlyDescending(s) && x !in s
    ensures StrictlyDescending(r)
    ensures forall y :: y in r <==> y in s || y == x
    ensures |r| == |s| + 1
  {
    if s == [] || x > s[0] then
      [x] + s
    else
      assert StrictlyDescending(s[1..]);
      var rest := InsertDescending(s[1..], x);
      assert forall y :: y in s <==> y == s[0] || y in s[1..];
      assert forall j :: 0 <= j < |rest| ==> s[0] > rest[j] by {
        forall j | 0 <= j < |rest| ensures s[0] > rest[j] {
          assert rest[j] in rest;
        }
      }
      [s[0]] + rest
  }

  /** The next key a map iteration yields: any one of those not yet visited. */
  method NextKey<K>(remaining: set<K>) returns (k: K)
    requires remaining != {}
    ensures k in remaining
  {
    k :| k in remaining;
  }

  /**
   * getSortedIDLevelRanges' fill: the keys, taken in the map's iteration
   * order (any order), end up strictly descending.
   */
  method SortKeysDescending(keys: set<int>) returns (sorted: seq<int>)
    ensures StrictlyDescending(sorted)
    ensures forall x :: x in sorted <==> x in keys
  {
    sorted := [];
    var remaining := keys;
    while remaining != {}
      invariant StrictlyDescending(sorted)
      invariant forall x :: x in sorted <==> x in keys && x !in remaining
      invariant remaining <= keys
      decreases remaining
    {
      var k := NextKey(remaining);
      sorted := InsertDescending(sorted, k);
      remaining := remaining - {k};
    }
  }

  /** getSortedIDLevelRanges' fill of an empty cache: the range bounds, greatest first. */
  method FillLevelCache() returns (sorted: seq<int>)
    ensures CacheValid(Some(sorted))
  {
    sorted := SortKeysDescending(IDLevelRangesAsString.Keys);
  }

  /** A filled cache holds exactly SortedRangeBounds, whatever order the keys were visited in. */
  lemma CacheIsSortedBounds(cache: Option<seq<int>>)
    requires CacheValid(cache) && cache.Some?
    ensures cache.value == SortedRangeBounds
  {
    RangeBoundsNameLevels();
    DescendingUnique(cache.value, SortedRangeBounds);
  }

  /** The cache invariant: empty, or the range bounds in strictly descending order. */
  ghost predicate CacheValid(cache: Option<seq<int>>)
  {
    cache.Some? ==>
      StrictlyDescending(cache.value) && forall x :: x in cache.value <==> x in IDLevelRangesAsString
  }

  /**
   * The slog level of a level name: TextToLevelMap's entry, and PANIC (16)
   * for a name it lacks, such as "UNKNOWN".
   */
  function SlogLevelOf(name: string): (level: int)
    ensures name in TextToLevelMap ==> level == TextToLevelMap[name]
    ensures name !in TextToLevelMap ==> level == LevelPanicInt
  {
    if name in TextToLevelMap then TextToLevelMap[name] else LevelPanicInt
  }

  /** A message with a negative number is logged at PANIC level. */
  lemma NegativeNumberLogsAtPanic(sorted: seq<int>, n: int)
    requires StrictlyDescending(sorted)
    requires forall x :: x in sorted <==> x in IDLevelRangesAsString
    requires n < 0
    ensures SlogLevelOf(LevelFromSorted(IDLevelRangesAsString, sorted, n)) == LevelPanicInt
  {
    LevelOfNumber(sorted, n);
  }

  /** The slog level of the i-th level name: -8, -4, ..., 16, four apart. */
  lemma SlogLevelOfName(i: int)
    requires 0 <= i < 7
    ensures SlogLevelOf(LevelNames[i]) == 4 * i - 8
  {
    assert i == 0 || i == 1 || i == 2 || i == 3 || i == 4 || i == 5 || i == 6;
  }

  /** Message numbers classify monotonically: a larger number is never a lower level. */
  lemma LevelMonotone(sorted: seq<int>, m: int, n: int)
    requires StrictlyDescending(sorted)
    requires forall x :: x in sorted <==> x in IDLevelRangesAsString
    requires 0 <= m <= n
    ensures SlogLevelOf(LevelFromSorted(IDLevelRangesAsString, sorted, m))
         <= SlogLevelOf(LevelFromSorted(IDLevelRangesAsString, sorted, n))
  {
    LevelOfNumber(sorted, m);
    LevelOfNumber(sorted, n);
    var i := if m >= 6000 then 6 else m / 1000;
    var j := if n >= 6000 then 6 else n / 1000;
    assert i <= j;
    SlogLevelOfName(i);
    SlogLevelOfName(j);
  }
}

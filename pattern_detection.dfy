/** The heuristic chart-pattern detector (`PatternDetector` in
    core/pattern_detection.py): bull flag, head & shoulders, double bottom and
    golden cross over a price list, and the ordered list of detected patterns. */
module PatternDetection {
  import opened Outcomes
  import opened Numeric
  import opened Indicators

  /** `{'detected': ..., 'confidence': ...}` as one detector returns it. */
  datatype Detection = Detection(detected: bool, confidence: int)

  const NotDetected: Detection := Detection(false, 0)

  datatype PatternType = BullFlag | HeadShoulders | DoubleBottom | GoldenCross

  /** `{'type': ..., 'confidence': ...}` as `detect_all_patterns` lists it. */
  datatype PatternMatch = PatternMatch(kind: PatternType, confidence: int)

  /** Position of a pattern type in the fixed evaluation order. */
  function Rank(t: PatternType): nat
  {
    match t
    case BullFlag => 0
    case HeadShoulders => 1
    case DoubleBottom => 2
    case GoldenCross => 3
  }

  ghost predicate AllPositive(s: seq<real>)
  {
    forall i :: 0 <= i < |s| ==> s[i] > 0.0
  }

  /** `s[-k:]` */
  function Last(s: seq<real>, k: nat): (r: seq<real>)
    requires k <= |s|
    ensures |r| == k
    ensures forall i :: 0 <= i < k ==> r[i] == s[|s| - k + i]
  {
    s[|s| - k..]
  }

  lemma LastPositive(s: seq<real>, k: nat)
    requires k <= |s| && AllPositive(s)
    ensures AllPositive(Last(s, k))
  {
  }

  // ---------------------------------------------------------------- sorting

  /** The order `sorted` puts values in (descending for `reverse=True`). */
  predicate Before(x: real, y: real, descending: bool)
  {
    if descending then x >= y else x <= y
  }

  ghost predicate SortedBy(s: seq<real>, descending: bool)
  {
    forall i, j :: 0 <= i < j < |s| ==> Before(s[i], s[j], descending)
  }

  function Insert(x: real, s: seq<real>, descending: bool): (r: seq<real>)
    ensures |r| == |s| + 1
    ensures multiset(r) == multiset(s) + multiset{x}
  {
    if s == [] then [x]
    else if Before(x, s[0], descending) then [x] + s
    else
      assert s == [s[0]] + s[1..];
      [s[0]] + Insert(x, s[1..], descending)
  }

  /** The values of `sorted(...)` on a list whose sort key is the value. */
  function Sort(s: seq<real>, descending: bool): (r: seq<real>)
    ensures |r| == |s|
    ensures multiset(r) == multiset(s)
  {
    if s == [] then []
    else
      assert s == [s[0]] + s[1..];
      Insert(s[0], Sort(s[1..], descending), descending)
  }

  /** Whatever comes after `y` in the order still does once `x` is inserted. */
  lemma {:induction false} InsertAfter(y: real, x: real, s: seq<real>, descending: bool)
    requires Before(y, x, descending)
    requires forall k :: 0 <= k < |s| ==> Before(y, s[k], descending)
    ensures forall k :: 0 <= k < |Insert(x, s, descending)| ==> Before(y, Insert(x, s, descending)[k], descending)
  {
    if s != [] && !Before(x, s[0], descending) {
      InsertAfter(y, x, s[1..], descending);
    }
  }

  lemma {:induction false} InsertSorted(x: real, s: seq<real>, descending: bool)
    requires SortedBy(s, descending)
    ensures SortedBy(Insert(x, s, descending), descending)
  {
    if s != [] && !Before(x, s[0], descending) {
      InsertSorted(x, s[1..], descending);
      InsertAfter(s[0], x, s[1..], descending);
    }
  }

  /** `Sort` is sorted and is a permutation of its input. */
  lemma {:induction false} SortSorted(s: seq<real>, descending: bool)
    ensures SortedBy(Sort(s, descending), descending)
  {
    if s != [] {
      SortSorted(s[1..], descending);
      InsertSorted(s[0], Sort(s[1..], descending), descending);
    }
  }

  /** The first element of the sorted list is the extreme value of its input. */
  lemma SortFirstIsExtreme(s: seq<real>, descending: bool)
    requires |s| >= 1
    ensures Sort(s, descending)[0] in s
    ensures forall i :: 0 <= i < |s| ==> Before(Sort(s, descending)[0], s[i], descending)
  {
    var r := Sort(s, descending);
    SortSorted(s, descending);
    assert r[0] in multiset(r);
    forall i | 0 <= i < |s| ensures Before(r[0], s[i], descending) {
      assert s[i] in multiset(s);
      var m :| 0 <= m < |r| && r[m] == s[i];
    }
  }

  lemma SortMember(s: seq<real>, descending: bool, k: nat)
    requires k < |s|
    ensures Sort(s, descending)[k] in s
  {
    assert Sort(s, descending)[k] in multiset(Sort(s, descending));
  }

  // ---------------------------------------------------------------- extrema

  /** `(i, recent[i])` as the peak and trough scans append it. */
  datatype Extremum = Extremum(index: int, value: real)

  datatype ExtremumKind = Peak | Trough

  /** A strict local maximum (peak) or minimum (trough) at interior index i. */
  predicate IsExtremum(s: seq<real>, i: int, kind: ExtremumKind)
    requires 1 <= i < |s| - 1
  {
    match kind
    case Peak => s[i] > s[i - 1] && s[i] > s[i + 1]
    case Trough => s[i] < s[i - 1] && s[i] < s[i + 1]
  }

  /** The extrema at indices 1 .. k-1, in index order. */
  function ExtremaBelow(s: seq<real>, kind: ExtremumKind, k: int): seq<Extremum>
    requires 1 <= k <= |s| - 1
    decreases k
  {
    if k == 1 then []
    else
      ExtremaBelow(s, kind, k - 1)
        + (if IsExtremum(s, k - 1, kind) then [Extremum(k - 1, s[k - 1])] else [])
  }

  /** All strict interior extrema of `s`, in index order. */
  function Extrema(s: seq<real>, kind: ExtremumKind): seq<Extremum>
  {
    if |s| < 2 then [] else ExtremaBelow(s, kind, |s| - 1)
  }

  /** Each entry of `es` is an interior extremum of `s` below `bound`, with
      its own value, and the indices strictly increase. */
  ghost predicate SoundExtrema(s: seq<real>, kind: ExtremumKind, es: seq<Extremum>, bound: int)
    requires bound <= |s| - 1
  {
    && (forall j :: 0 <= j < |es| ==>
         1 <= es[j].index < bound && es[j].value == s[es[j].index] && IsExtremum(s, es[j].index, kind))
    && (forall j, m :: 0 <= j < m < |es| ==> es[j].index < es[m].index)
  }

  /** `es` lists each interior extremum of `s` below `bound`. */
  ghost predicate Listed(es: seq<Extremum>, i: int)
  {
    exists j :: 0 <= j < |es| && es[j].index == i
  }

  ghost predicate CompleteExtrema(s: seq<real>, kind: ExtremumKind, es: seq<Extremum>, bound: int)
    requires bound <= |s| - 1
  {
    forall i :: 1 <= i < bound ==> (IsExtremum(s, i, kind) <==> Listed(es, i))
  }

  lemma {:induction false} ExtremaBelowSound(s: seq<real>, kind: ExtremumKind, k: int)
    requires 1 <= k <= |s| - 1
    ensures SoundExtrema(s, kind, ExtremaBelow(s, kind, k), k)
  {
    if k > 1 {
      ExtremaBelowSound(s, kind, k - 1);
      var prev := ExtremaBelow(s, kind, k - 1);
      var cur := ExtremaBelow(s, kind, k);
      assert cur[..|prev|] == prev;
      if IsExtremum(s, k - 1, kind) {
        assert cur[|prev|].index == k - 1;
      }
    }
  }

  lemma {:induction false} ExtremaBelowComplete(s: seq<real>, kind: ExtremumKind, k: int)
    requires 1 <= k <= |s| - 1
    ensures CompleteExtrema(s, kind, ExtremaBelow(s, kind, k), k)
  {
    if k > 1 {
      ExtremaBelowComplete(s, kind, k - 1);
      ExtremaBelowSound(s, kind, k - 1);
      var prev := ExtremaBelow(s, kind, k - 1);
      var cur := ExtremaBelow(s, kind, k);
      var added := if IsExtremum(s, k - 1, kind) then [Extremum(k - 1, s[k - 1])] else [];
      assert cur == prev + added;
      forall i | 1 <= i < k
        ensures IsExtremum(s, i, kind) <==> Listed(cur, i)
      {
        if IsExtremum(s, i, kind) {
          if i < k - 1 {
            var j :| 0 <= j < |prev| && prev[j].index == i;
            assert cur[j].index == i;
          } else {
            assert cur[|prev|].index == i;
          }
        }
        if Listed(cur, i) {
          var j :| 0 <= j < |cur| && cur[j].index == i;
          if j < |prev| {
            assert prev[j].index == i;
            assert Listed(prev, i);
          } else {
            assert cur[j] == added[j - |prev|];
          }
        }
      }
    }
  }

  /** `Extrema` lists exactly the strict interior extrema, in index order. */
  lemma ExtremaExact(s: seq<real>, kind: ExtremumKind)
    requires |s| >= 2
    ensures SoundExtrema(s, kind, Extrema(s, kind), |s| - 1)
    ensures CompleteExtrema(s, kind, Extrema(s, kind), |s| - 1)
  {
    ExtremaBelowSound(s, kind, |s| - 1);
    ExtremaBelowComplete(s, kind, |s| - 1);
  }

  /** The peak scan (lines 110-112) and the trough scan (lines 132-134). */
  method ScanExtrema(recent: seq<real>, kind: ExtremumKind) returns (found: seq<Extremum>)
    ensures found == Extrema(recent, kind)
  {
    found := [];
    if |recent| < 2 {
      return;
    }
    var i := 1;
    while i < |recent| - 1
      invariant 1 <= i <= |recent| - 1
      invariant found == ExtremaBelow(recent, kind, i)
    {
      if IsExtremum(recent, i, kind) {
        found := found + [Extremum(i, recent[i])];
      }
      i := i + 1;
    }
  }

  function Values(xs: seq<Extremum>): (v: seq<real>)
    ensures |v| == |xs|
    ensures forall j :: 0 <= j < |xs| ==> v[j] == xs[j].value
  {
    seq(|xs|, j requires 0 <= j < |xs| => xs[j].value)
  }

  // ---------------------------------------------------------------- bull flag

  ghost predicate SqrtNonNegative(sqrt: real -> real)
  {
    forall x :: 0.0 <= x ==> 0.0 <= sqrt(x)
  }

  /** `sqrt` is the square root on the non-negative reals. */
  ghost predicate IsSqrt(sqrt: real -> real)
  {
    forall x :: 0.0 <= x ==> 0.0 <= sqrt(x) && sqrt(x) * sqrt(x) == x
  }

  /** The mean of the last 5 of the first half exceeds the mean of its first 5. */
  predicate TrendUp(firstHalf: seq<real>)
    requires |firstHalf| == 10
  {
    Mean(firstHalf[5..]) > Mean(firstHalf[..5])
  }

  /** `detect_bull_flag`, with `np.std` written as `sqrt` of the population
      variance. */
  function DetectBullFlag(prices: seq<real>, sqrt: real -> real): (r: Detection)
    requires SqrtNonNegative(sqrt)
    ensures |prices| < 20 ==> r == NotDetected
    ensures r.detected <==>
      |prices| >= 20 && TrendUp(Last(prices, 20)[..10])
      && sqrt(Variance(Last(prices, 20)[10..])) < sqrt(Variance(Last(prices, 20)[..10])) * 0.7
    ensures r.detected ==> 70 <= r.confidence <= 95
    ensures !r.detected ==> r.confidence == 0
  {
    if |prices| < 20 then NotDetected
    else
      var recent := Last(prices, 20);
      var firstHalf := recent[..10];
      var secondHalf := recent[10..];
      var secondStd := sqrt(Variance(secondHalf));
      var firstStd := sqrt(Variance(firstHalf));
      if TrendUp(firstHalf) && secondStd < firstStd * 0.7 then
        var c := 60 + Trunc((1.0 - secondStd / firstStd) * 35.0);
        BullFlagConfidenceRange(secondStd, firstStd);
        Detection(true, MinInt(95, c))
      else NotDetected
  }

  lemma BullFlagConfidenceRange(s2: real, s1: real)
    requires 0.0 <= s2 < s1 * 0.7
    ensures s1 > 0.0
    ensures 70 <= 60 + Trunc((1.0 - s2 / s1) * 35.0) <= 95
  {
    var q := s2 / s1;
    assert q * s1 == s2;
    assert 0.0 <= q < 0.7 by {
      if q >= 0.7 {
        MulNonNegative(q - 0.7, s1);
      }
    }
  }

  lemma SquareLess(a: real, b: real)
    requires 0.0 <= a && 0.0 <= b
    ensures a < b <==> a * a < b * b
  {
    if a < b {
      MulNonNegative(b - a, a);
      assert b * b - a * a == (b - a) * (b + a);
      assert (b - a) * (b + a) > 0.0;
    } else {
      MulNonNegative(a - b, a + b);
      assert a * a - b * b == (a - b) * (a + b);
    }
  }

  /** With a true square root, comparing standard deviations is comparing
      variances: the flag is detected iff the trend is up and the second
      half's variance is below 0.49 times the first half's. */
  lemma BullFlagByVariance(prices: seq<real>, sqrt: real -> real)
    requires IsSqrt(sqrt) && |prices| >= 20
    ensures DetectBullFlag(prices, sqrt).detected <==>
      TrendUp(Last(prices, 20)[..10])
      && Variance(Last(prices, 20)[10..]) < 0.49 * Variance(Last(prices, 20)[..10])
  {
    var v1 := Variance(Last(prices, 20)[..10]);
    var v2 := Variance(Last(prices, 20)[10..]);
    var s1 := sqrt(v1);
    var s2 := sqrt(v2);
    assert s1 * s1 == v1 && s2 * s2 == v2;
    assert 0.0 <= s1 && 0.0 <= s2;
    SquareLess(s2, s1 * 0.7);
    assert (s1 * 0.7) * (s1 * 0.7) == 0.49 * v1;
  }

  // ---------------------------------------------------------------- head & shoulders

  /** Lines 114-120: with at least three peaks, sort them by height descending
      and score the second highest against the highest. */
  function HeadShouldersVerdict(peaks: seq<Extremum>): (r: Outcome<Detection>)
    ensures |peaks| < 3 ==> r == Ok(NotDetected)
    ensures r.Ok? ==> (r.value.detected <==> |peaks| >= 3)
    ensures r.Raised? ==>
      r.error == ZeroDivisionError && |peaks| >= 3 && Sort(Values(peaks), true)[0] == 0.0
    ensures |peaks| >= 3 && AllPositive(Values(peaks)) ==>
      r.Ok? && 65 <= r.value.confidence <= 85
  {
    if |peaks| < 3 then Ok(NotDetected)
    else
      var h := Sort(Values(peaks), true);
      if h[0] == 0.0 then Raised(ZeroDivisionError)
      else
        var c := 65 + Trunc(h[1] / h[0] * 20.0);
        HeadShouldersPositive(peaks);
        Ok(Detection(true, MinInt(95, c)))
  }

  lemma HeadShouldersPositive(peaks: seq<Extremum>)
    requires |peaks| >= 3
    ensures var h := Sort(Values(peaks), true);
      AllPositive(Values(peaks)) ==> h[0] > 0.0 && 65 <= 65 + Trunc(h[1] / h[0] * 20.0) <= 85
  {
    var h := Sort(Values(peaks), true);
    if AllPositive(Values(peaks)) {
      SortSorted(Values(peaks), true);
      SortMember(Values(peaks), true, 1);
      assert Before(h[0], h[1], true);
      HeadShouldersRatio(h[1], h[0]);
    }
  }

  lemma HeadShouldersRatio(second: real, first: real)
    requires 0.0 < second <= first
    ensures 65 <= 65 + Trunc(second / first * 20.0) <= 85
  {
    var q := second / first;
    assert q * first == second;
    assert 0.0 < q <= 1.0 by {
      if q > 1.0 {
        MulPositive(q - 1.0, first);
      }
      if q <= 0.0 {
        MulNonNegative(-q, first);
      }
    }
  }

  /** `detect_head_shoulders` as a value. */
  function HeadShouldersResult(prices: seq<real>): Outcome<Detection>
  {
    if |prices| < 15 then Ok(NotDetected)
    else HeadShouldersVerdict(Extrema(Last(prices, 15), Peak))
  }

  /** `detect_head_shoulders`: below 15 prices nothing is detected; otherwise
      the pattern is detected iff the last 15 prices hold at least three
      strict local maxima, with confidence in [65, 85] for positive prices. */
  method DetectHeadShoulders(prices: seq<real>) returns (r: Outcome<Detection>)
    ensures r == HeadShouldersResult(prices)
    ensures |prices| < 15 ==> r == Ok(NotDetected)
    ensures r.Ok? && |prices| >= 15 ==> (r.value.detected <==> |Extrema(Last(prices, 15), Peak)| >= 3)
    ensures r.Ok? && !r.value.detected ==> r.value.confidence == 0
    ensures AllPositive(prices) && r.Ok? && r.value.detected ==> 65 <= r.value.confidence <= 85
  {
    if |prices| < 15 {
      return Ok(NotDetected);
    }
    var recent := Last(prices, 15);
    var peaks := ScanExtrema(recent, Peak);
    if AllPositive(prices) {
      ExtremaExact(recent, Peak);
      assert AllPositive(Values(peaks));
    }
    r := HeadShouldersVerdict(peaks);
  }

  // ---------------------------------------------------------------- double bottom

  function Abs(x: real): real { if x < 0.0 then -x else x }

  /** `abs(low - other) / low` */
  function RelativeGap(low: real, other: real): real
    requires low != 0.0
  {
    Abs(low - other) / low
  }

  lemma RelativeGapPositive(t0: real, t1: real)
    requires 0.0 < t0 <= t1
    ensures RelativeGap(t0, t1) < 0.03 <==> t1 - t0 < 0.03 * t0
  {
    var d := RelativeGap(t0, t1);
    assert d == (t1 - t0) / t0;
    assert d * t0 == t1 - t0;
    if d < 0.03 {
      MulPositive(0.03 - d, t0);
    } else {
      MulNonNegative(d - 0.03, t0);
    }
  }

  /** Lines 136-143: with at least two troughs, sort them by depth and compare
      the two lowest relative to the lowest. */
  function DoubleBottomVerdict(troughs: seq<Extremum>): (r: Outcome<Detection>)
    ensures |troughs| < 2 ==> r == Ok(NotDetected)
    ensures r.Raised? ==>
      r.error == ZeroDivisionError && |troughs| >= 2 && Sort(Values(troughs), false)[0] == 0.0
    ensures r.Ok? ==> (r.value.detected <==>
      |troughs| >= 2 && Sort(Values(troughs), false)[0] != 0.0
      && RelativeGap(Sort(Values(troughs), false)[0], Sort(Values(troughs), false)[1]) < 0.03)
    ensures r.Ok? && r.value.detected ==> 87 <= r.value.confidence <= 95
    ensures r.Ok? && !r.value.detected ==> r.value.confidence == 0
  {
    if |troughs| < 2 then Ok(NotDetected)
    else
      var t := Sort(Values(troughs), false);
      if t[0] == 0.0 then Raised(ZeroDivisionError)
      else
        var diff := RelativeGap(t[0], t[1]);
        if diff < 0.03 then
          DoubleBottomConfidenceRange(diff);
          Ok(Detection(true, MinInt(95, 70 + Trunc((1.0 - diff * 10.0) * 25.0))))
        else Ok(NotDetected)
  }

  lemma DoubleBottomConfidenceRange(diff: real)
    requires diff < 0.03
    ensures 87 <= MinInt(95, 70 + Trunc((1.0 - diff * 10.0) * 25.0)) <= 95
  {
  }

  /** For positive troughs the test is "the second lowest is within 3% above
      the lowest". */
  lemma DoubleBottomPositive(troughs: seq<Extremum>)
    requires |troughs| >= 2 && AllPositive(Values(troughs))
    ensures DoubleBottomVerdict(troughs).Ok?
    ensures DoubleBottomVerdict(troughs).value.detected <==>
      Sort(Values(troughs), false)[1] - Sort(Values(troughs), false)[0]
        < 0.03 * Sort(Values(troughs), false)[0]
  {
    var t := Sort(Values(troughs), false);
    SortSorted(Values(troughs), false);
    SortMember(Values(troughs), false, 0);
    assert Before(t[0], t[1], false);
    assert t[0] > 0.0;
    RelativeGapPositive(t[0], t[1]);
  }

  /** `detect_double_bottom` as a value. */
  function DoubleBottomResult(prices: seq<real>): Outcome<Detection>
  {
    if |prices| < 20 then Ok(NotDetected)
    else DoubleBottomVerdict(Extrema(Last(prices, 20), Trough))
  }

  /** `detect_double_bottom`: below 20 prices nothing is detected; otherwise
      at least two strict local minima among the last 20 prices whose two
      lowest differ by under 3% of the lowest, with confidence in [87, 95]. */
  method DetectDoubleBottom(prices: seq<real>) returns (r: Outcome<Detection>)
    ensures r == DoubleBottomResult(prices)
    ensures |prices| < 20 ==> r == Ok(NotDetected)
    ensures r.Ok? && r.value.detected ==> |Extrema(Last(prices, 20), Trough)| >= 2 && 87 <= r.value.confidence <= 95
    ensures AllPositive(prices) ==> r.Ok?
  {
    if |prices| < 20 {
      return Ok(NotDetected);
    }
    var recent := Last(prices, 20);
    var troughs := ScanExtrema(recent, Trough);
    if AllPositive(prices) && |troughs| >= 2 {
      ExtremaExact(recent, Trough);
      assert AllPositive(Values(troughs));
      DoubleBottomPositive(troughs);
    }
    r := DoubleBottomVerdict(troughs);
  }

  // ---------------------------------------------------------------- golden cross

  /** The SMAs the golden-cross test compares, the previous pair taken on the
      list without its latest price. */
  datatype CrossInputs = CrossInputs(short: real, long: real, prevShort: real, prevLong: real)

  function CrossAverages(prices: seq<real>, shortPeriod: int, longPeriod: int): CrossInputs
    requires shortPeriod >= 1 && longPeriod >= 1 && |prices| >= 1
  {
    var shortMa := Sma(prices, shortPeriod);
    var longMa := Sma(prices, longPeriod);
    var before := prices[..|prices| - 1];
    CrossInputs(shortMa, longMa,
                if |prices| > shortPeriod then Sma(before, shortPeriod) else shortMa,
                if |prices| > longPeriod then Sma(before, longPeriod) else longMa)
  }

  /** `detect_golden_cross`: fires iff the previous short SMA was at or below
      the previous long SMA and the short SMA is now above the long one;
      confidence in [75, 95] for positive prices. */
  function DetectGoldenCross(prices: seq<real>, shortPeriod: int, longPeriod: int): (r: Outcome<Detection>)
    requires shortPeriod >= 1 && longPeriod >= 1
    ensures |prices| < longPeriod + 5 ==> r == Ok(NotDetected)
    ensures |prices| >= longPeriod + 5 ==>
      var a := CrossAverages(prices, shortPeriod, longPeriod);
      (r.Raised? <==> a.prevShort <= a.prevLong && a.short > a.long && a.long == 0.0)
      && (r.Ok? ==> (r.value.detected <==> a.prevShort <= a.prevLong && a.short > a.long))
    ensures r.Raised? ==> r.error == ZeroDivisionError
    ensures r.Ok? && !r.value.detected ==> r.value.confidence == 0
    ensures AllPositive(prices) ==> r.Ok? && (r.value.detected ==> 75 <= r.value.confidence <= 95)
  {
    if |prices| < longPeriod + 5 then Ok(NotDetected)
    else
      var a := CrossAverages(prices, shortPeriod, longPeriod);
      GoldenCrossPositive(prices, shortPeriod, longPeriod);
      if a.prevShort <= a.prevLong && a.short > a.long then
        if a.long == 0.0 then Raised(ZeroDivisionError)
        else
          var c := 75 + Trunc((a.short / a.long - 1.0) * 20.0);
          Ok(Detection(true, MinInt(95, c)))
      else Ok(NotDetected)
  }

  lemma GoldenCrossPositive(prices: seq<real>, shortPeriod: int, longPeriod: int)
    requires shortPeriod >= 1 && longPeriod >= 1 && |prices| >= 1
    ensures var a := CrossAverages(prices, shortPeriod, longPeriod);
      AllPositive(prices) && a.short > a.long ==>
        a.long > 0.0 && 75 <= MinInt(95, 75 + Trunc((a.short / a.long - 1.0) * 20.0)) <= 95
  {
    var a := CrossAverages(prices, shortPeriod, longPeriod);
    if AllPositive(prices) && a.short > a.long {
      SmaPositive(prices, longPeriod);
      GoldenCrossRatio(a.short, a.long);
    }
  }

  lemma SmaPositive(prices: seq<real>, period: int)
    requires period >= 1 && |prices| >= 1 && AllPositive(prices)
    ensures Sma(prices, period) > 0.0
  {
    var w := SmaWindow(prices, period);
    assert forall i :: 0 <= i < |w| ==> w[i] in prices;
    MeanBounds(w, MinOf(prices), MaxOf(prices));
  }

  function MinOf(s: seq<real>): (m: real)
    requires |s| >= 1
    ensures forall i :: 0 <= i < |s| ==> m <= s[i]
    ensures m in s
  {
    if |s| == 1 then s[0] else MinReal(s[0], MinOf(s[1..]))
  }

  function MaxOf(s: seq<real>): (m: real)
    requires |s| >= 1
    ensures forall i :: 0 <= i < |s| ==> s[i] <= m
  {
    if |s| == 1 then s[0] else MaxReal(s[0], MaxOf(s[1..]))
  }

  lemma GoldenCrossRatio(short: real, long: real)
    requires 0.0 <= long < short
    ensures long > 0.0 ==> 75 <= MinInt(95, 75 + Trunc((short / long - 1.0) * 20.0)) <= 95
  {
    if long > 0.0 {
      var q := short / long;
      assert q * long == short;
      assert q > 1.0 by {
        if q <= 1.0 {
          MulNonNegative(1.0 - q, long);
        }
      }
    }
  }

  // ---------------------------------------------------------------- all patterns

  /** The match for one detector, if it fired. */
  function Keep(kind: PatternType, d: Detection): seq<PatternMatch>
  {
    if d.detected then [PatternMatch(kind, d.confidence)] else []
  }

  /** The confidence of the first match of type `kind`, if any. */
  function Find(ms: seq<PatternMatch>, kind: PatternType): Option<int>
  {
    if ms == [] then None
    else if ms[0].kind == kind then Some(ms[0].confidence)
    else Find(ms[1..], kind)
  }

  lemma FindKeep(kind: PatternType, d: Detection, k: PatternType)
    ensures Find(Keep(kind, d), k) == if kind == k && d.detected then Some(d.confidence) else None
  {
    if d.detected {
      assert Keep(kind, d)[1..] == [];
    }
  }

  lemma {:induction false} FindAppend(a: seq<PatternMatch>, b: seq<PatternMatch>, kind: PatternType)
    ensures Find(a + b, kind) == if Find(a, kind).Some? then Find(a, kind) else Find(b, kind)
  {
    if a != [] {
      assert (a + b)[1..] == a[1..] + b;
      FindAppend(a[1..], b, kind);
    } else {
      assert a + b == b;
    }
  }

  /** The list holds a match of type `kind` iff `d` fired, carrying d's
      confidence. */
  predicate Reports(ms: seq<PatternMatch>, kind: PatternType, d: Detection)
  {
    Find(ms, kind) == if d.detected then Some(d.confidence) else None
  }

  /** Types in strictly increasing evaluation order (so each at most once). */
  ghost predicate InOrder(ms: seq<PatternMatch>)
  {
    forall i, j :: 0 <= i < j < |ms| ==> Rank(ms[i].kind) < Rank(ms[j].kind)
  }

  /** Every match in `ms` ranks below `r`. */
  ghost predicate RanksBelow(ms: seq<PatternMatch>, r: nat)
  {
    forall i :: 0 <= i < |ms| ==> Rank(ms[i].kind) < r
  }

  lemma InOrderAppend(ms: seq<PatternMatch>, kind: PatternType, d: Detection)
    requires InOrder(ms) && RanksBelow(ms, Rank(kind))
    ensures InOrder(ms + Keep(kind, d)) && RanksBelow(ms + Keep(kind, d), Rank(kind) + 1)
  {
    if !d.detected {
      assert ms + Keep(kind, d) == ms;
    }
  }

  lemma CollectFinds(bf: Detection, hs: Detection, db: Detection, gc: Detection, kind: PatternType)
    ensures var ms := Keep(BullFlag, bf) + Keep(HeadShoulders, hs) + Keep(DoubleBottom, db) + Keep(GoldenCross, gc);
      Find(ms, kind) == match kind
        case BullFlag => (if bf.detected then Some(bf.confidence) else None)
        case HeadShoulders => (if hs.detected then Some(hs.confidence) else None)
        case DoubleBottom => (if db.detected then Some(db.confidence) else None)
        case GoldenCross => (if gc.detected then Some(gc.confidence) else None)
  {
    var k0, k1, k2, k3 := Keep(BullFlag, bf), Keep(HeadShoulders, hs), Keep(DoubleBottom, db), Keep(GoldenCross, gc);
    FindKeep(BullFlag, bf, kind);
    FindKeep(HeadShoulders, hs, kind);
    FindKeep(DoubleBottom, db, kind);
    FindKeep(GoldenCross, gc, kind);
    FindAppend(k0 + k1 + k2, k3, kind);
    FindAppend(k0 + k1, k2, kind);
    FindAppend(k0, k1, kind);
  }

  lemma CollectOrdered(bf: Detection, hs: Detection, db: Detection, gc: Detection)
    ensures var ms := Keep(BullFlag, bf) + Keep(HeadShoulders, hs) + Keep(DoubleBottom, db) + Keep(GoldenCross, gc);
      |ms| <= 4 && InOrder(ms)
  {
    var m1 := Keep(BullFlag, bf);
    assert [] + m1 == m1;
    InOrderAppend([], BullFlag, bf);
    var m2 := m1 + Keep(HeadShoulders, hs);
    InOrderAppend(m1, HeadShoulders, hs);
    var m3 := m2 + Keep(DoubleBottom, db);
    InOrderAppend(m2, DoubleBottom, db);
    InOrderAppend(m3, GoldenCross, gc);
  }

  lemma CollectReports(bf: Detection, hs: Detection, db: Detection, gc: Detection)
    ensures var ms := Keep(BullFlag, bf) + Keep(HeadShoulders, hs) + Keep(DoubleBottom, db) + Keep(GoldenCross, gc);
      && Reports(ms, BullFlag, bf) && Reports(ms, HeadShoulders, hs)
      && Reports(ms, DoubleBottom, db) && Reports(ms, GoldenCross, gc)
  {
    CollectFinds(bf, hs, db, gc, BullFlag);
    CollectFinds(bf, hs, db, gc, HeadShoulders);
    CollectFinds(bf, hs, db, gc, DoubleBottom);
    CollectFinds(bf, hs, db, gc, GoldenCross);
  }

  /** The detected patterns, appended in evaluation order. */
  function Collect(bf: Detection, hs: Detection, db: Detection, gc: Detection): (ms: seq<PatternMatch>)
    ensures |ms| <= 4 && InOrder(ms)
    ensures Reports(ms, BullFlag, bf) && Reports(ms, HeadShoulders, hs)
    ensures Reports(ms, DoubleBottom, db) && Reports(ms, GoldenCross, gc)
  {
    CollectOrdered(bf, hs, db, gc);
    CollectReports(bf, hs, db, gc);
    Keep(BullFlag, bf) + Keep(HeadShoulders, hs) + Keep(DoubleBottom, db) + Keep(GoldenCross, gc)
  }

  /** `detect_all_patterns` as a value: the first exception a detector raises,
      or the detected patterns in the fixed order. */
  function AllPatterns(prices: seq<real>, sqrt: real -> real): Outcome<seq<PatternMatch>>
    requires SqrtNonNegative(sqrt)
  {
    var bf := DetectBullFlag(prices, sqrt);
    var hs := HeadShouldersResult(prices);
    var db := DoubleBottomResult(prices);
    var gc := DetectGoldenCross(prices, 50, 200);
    if hs.Raised? then Raised(hs.error)
    else if db.Raised? then Raised(db.error)
    else if gc.Raised? then Raised(gc.error)
    else Ok(Collect(bf, hs.value, db.value, gc.value))
  }

  /** `detect_all_patterns`: runs the four detectors in order and appends
      each detected pattern. */
  method DetectAllPatterns(prices: seq<real>, sqrt: real -> real) returns (r: Outcome<seq<PatternMatch>>)
    requires SqrtNonNegative(sqrt)
    ensures r == AllPatterns(prices, sqrt)
  {
    var bullFlag := DetectBullFlag(prices, sqrt);
    var patterns := Keep(BullFlag, bullFlag);
    var headShoulders := DetectHeadShoulders(prices);
    if headShoulders.Raised? {
      return Raised(headShoulders.error);
    }
    patterns := patterns + Keep(HeadShoulders, headShoulders.value);
    var doubleBottom := DetectDoubleBottom(prices);
    if doubleBottom.Raised? {
      return Raised(doubleBottom.error);
    }
    patterns := patterns + Keep(DoubleBottom, doubleBottom.value);
    var goldenCross := DetectGoldenCross(prices, 50, 200);
    if goldenCross.Raised? {
      return Raised(goldenCross.error);
    }
    patterns := patterns + Keep(GoldenCross, goldenCross.value);
    r := Ok(patterns);
  }

  /** The detected patterns come in the fixed order, each type at most once,
      and each type is listed iff its detector fired, with its confidence;
      the call raises iff one of the three dividing detectors does. */
  lemma AllPatternsReport(prices: seq<real>, sqrt: real -> real)
    requires SqrtNonNegative(sqrt)
    ensures var r := AllPatterns(prices, sqrt);
      (r.Ok? ==>
        |r.value| <= 4 && InOrder(r.value)
        && Reports(r.value, BullFlag, DetectBullFlag(prices, sqrt))
        && HeadShouldersResult(prices).Ok? && Reports(r.value, HeadShoulders, HeadShouldersResult(prices).value)
        && DoubleBottomResult(prices).Ok? && Reports(r.value, DoubleBottom, DoubleBottomResult(prices).value)
        && DetectGoldenCross(prices, 50, 200).Ok? && Reports(r.value, GoldenCross, DetectGoldenCross(prices, 50, 200).value))
      && (r.Raised? <==>
        HeadShouldersResult(prices).Raised? || DoubleBottomResult(prices).Raised? || DetectGoldenCross(prices, 50, 200).Raised?)
  {
  }

  /** With positive prices no detector divides by zero, so the full ordered
      list is always returned. */
  lemma AllPatternsPositive(prices: seq<real>, sqrt: real -> real)
    requires SqrtNonNegative(sqrt) && AllPositive(prices)
    ensures AllPatterns(prices, sqrt).Ok?
  {
    if |prices| >= 15 {
      var recent := Last(prices, 15);
      ExtremaExact(recent, Peak);
      var peaks := Extrema(recent, Peak);
      assert AllPositive(Values(peaks));
    }
    if |prices| >= 20 {
      var recent := Last(prices, 20);
      ExtremaExact(recent, Trough);
      var troughs := Extrema(recent, Trough);
      assert AllPositive(Values(troughs));
      if |troughs| >= 2 {
        DoubleBottomPositive(troughs);
      }
    }
  }
}

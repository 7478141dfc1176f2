/**
 * The data-quality gate: a fixed battery of counting checks over a series of
 * bars, and a sanity check on a single quote.
 *
 * Reals have no NaN or infinity, so whether a price or volume is NaN or
 * infinite is a parameter `nonFinite` of the checks.
 */
module Quality {
  import opened Common
  import opened Dates
  import opened Models

  /** One check's outcome; `count` is the number its message reports. */
  datatype ValidationCheck = ValidationCheck(name: string, passed: bool, count: nat)

  datatype ValidationResult = ValidationResult(checks: seq<ValidationCheck>)
  {
    /** True when every check passed (vacuously true with no checks). */
    predicate Passed()
    {
      forall i :: 0 <= i < |checks| ==> checks[i].passed
    }

    /** The failed checks, in battery order. */
    function FailedChecks(): (r: seq<ValidationCheck>)
      ensures r == [] <==> Passed()
      ensures forall c :: c in r <==> c in checks && !c.passed
      ensures forall c :: multiset(r)[c] == if c.passed then 0 else multiset(checks)[c]
    {
      var r := Filter(checks, IsFailed);
      FilterMembers(checks, IsFailed);
      FilterMultiset(checks, IsFailed);
      assert r == [] <==> Passed() by {
        if !Passed() {
          var i :| 0 <= i < |checks| && !checks[i].passed;
          assert checks[i] in r;
        }
        if r != [] {
          assert r[0] in checks;
        }
      }
      r
    }
  }

  predicate IsFailed(c: ValidationCheck)
  {
    !c.passed
  }

  /** A check appended to the battery is appended to the failed checks exactly when it failed. */
  lemma FailedChecksSnoc(checks: seq<ValidationCheck>, c: ValidationCheck)
    ensures ValidationResult(checks + [c]).FailedChecks()
            == ValidationResult(checks).FailedChecks() + (if c.passed then [] else [c])
  {
    FilterConcat(checks, [c], IsFailed);
    assert Filter([c], IsFailed) == if c.passed then [] else [c];
  }

  // ------------------------------------------------------------------
  // The per-bar and per-pair conditions the checks count
  // ------------------------------------------------------------------

  function Indicator(b: bool): nat
  {
    if b then 1 else 0
  }

  /** How many of `vals` are NaN or infinite. */
  function CountNonFinite(vals: seq<real>, nonFinite: real -> bool): (n: nat)
    ensures n <= |vals|
    ensures n == 0 <==> forall i :: 0 <= i < |vals| ==> !nonFinite(vals[i])
  {
    if vals == [] then 0
    else CountNonFinite(vals[..|vals| - 1], nonFinite) + Indicator(nonFinite(vals[|vals| - 1]))
  }

  /** The five values of a bar the null check inspects, in the order it inspects them. */
  function Ohlcv(b: Bar): seq<real>
  {
    [b.open, b.high, b.low, b.close, b.volume]
  }

  function Abs(x: real): real
  {
    if x < 0.0 then -x else x
  }

  /** The conditions the counting checks look for. */
  datatype Condition =
    | ExtremeMove     // the close moved more than 10% from a positive previous close
    | NegativeVolume  // the volume is negative
    | OutOfOrder      // the timestamp does not strictly increase from the previous bar
    | IntradayGap     // more than five minutes since the previous bar, on the same date
    | Inconsistent    // high below low, open or close, or low above open or close

  predicate InconsistentBar(b: Bar)
  {
    b.high < b.low || b.high < b.open || b.high < b.close || b.low > b.open || b.low > b.close
  }

  predicate Holds(c: Condition, bars: seq<Bar>, i: int)
  {
    match c
    case ExtremeMove =>
      1 <= i < |bars| && bars[i - 1].close > 0.0
      && Abs(bars[i].close - bars[i - 1].close) / bars[i - 1].close > 0.10
    case NegativeVolume => 0 <= i < |bars| && bars[i].volume < 0.0
    case OutOfOrder => 1 <= i < |bars| && bars[i].timestamp <= bars[i - 1].timestamp
    case IntradayGap =>
      1 <= i < |bars| && bars[i].timestamp - bars[i - 1].timestamp > 300
      && DateOf(bars[i].timestamp) == DateOf(bars[i - 1].timestamp)
    case Inconsistent => 0 <= i < |bars| && InconsistentBar(bars[i])
  }

  /** The number of `i` in `[lo, hi)` at which condition `c` holds. */
  function Count(c: Condition, bars: seq<Bar>, lo: int, hi: int): (n: nat)
    ensures hi >= lo ==> n <= hi - lo
    decreases hi - lo
  {
    if hi <= lo then 0 else Count(c, bars, lo, hi - 1) + Indicator(Holds(c, bars, hi - 1))
  }

  /** A count is positive exactly when the condition holds somewhere in the range. */
  lemma {:induction false} CountPositive(c: Condition, bars: seq<Bar>, lo: int, hi: int)
    ensures Count(c, bars, lo, hi) > 0 <==> exists i :: lo <= i < hi && Holds(c, bars, i)
    decreases hi - lo
  {
    if hi > lo {
      CountPositive(c, bars, lo, hi - 1);
    }
  }

  /** The total number of NaN or infinite values in the first `hi` bars. */
  function NonFiniteTotal(bars: seq<Bar>, hi: int, nonFinite: real -> bool): nat
    requires 0 <= hi <= |bars|
  {
    if hi == 0 then 0
    else NonFiniteTotal(bars, hi - 1, nonFinite) + CountNonFinite(Ohlcv(bars[hi - 1]), nonFinite)
  }

  lemma {:induction false} NonFiniteTotalPositive(bars: seq<Bar>, hi: int, nonFinite: real -> bool)
    requires 0 <= hi <= |bars|
    ensures NonFiniteTotal(bars, hi, nonFinite) > 0
        <==> exists i :: 0 <= i < hi && CountNonFinite(Ohlcv(bars[i]), nonFinite) > 0
  {
    if hi > 0 {
      NonFiniteTotalPositive(bars, hi - 1, nonFinite);
    }
  }

  /** More than this many intraday gaps fail the gap check. */
  const MaxIntradayGaps: nat := 10

  /**
   * The checks run on a series: `not_empty` alone for an empty series;
   * otherwise the seven checks in their fixed order.
   */
  function Validation(bars: seq<Bar>, nonFinite: real -> bool): ValidationResult
  {
    if bars == [] then ValidationResult([ValidationCheck("not_empty", false, 0)])
    else
      var n := |bars|;
      var nan := NonFiniteTotal(bars, n, nonFinite);
      var ext, neg := Count(ExtremeMove, bars, 1, n), Count(NegativeVolume, bars, 0, n);
      var ooo, gaps := Count(OutOfOrder, bars, 1, n), Count(IntradayGap, bars, 1, n);
      var inc := Count(Inconsistent, bars, 0, n);
      ValidationResult([
        ValidationCheck("not_empty", true, |bars|),
        ValidationCheck("no_nulls", nan == 0, nan),
        ValidationCheck("price_sanity", ext == 0, ext),
        ValidationCheck("volume_sanity", neg == 0, neg),
        ValidationCheck("timestamp_order", ooo == 0, ooo),
        ValidationCheck("gap_detection", gaps <= MaxIntradayGaps, gaps),
        ValidationCheck("ohlc_consistency", inc == 0, inc)])
  }

  /** `validate_bars`: the loops count, then the checks are appended in order. */
  method ValidateBars(bars: seq<Bar>, nonFinite: real -> bool) returns (result: ValidationResult)
    ensures result == Validation(bars, nonFinite)
  {
    var checks: seq<ValidationCheck> := [];
    if |bars| == 0 {
      checks := checks + [ValidationCheck("not_empty", false, 0)];
      return ValidationResult(checks);
    }
    checks := checks + [ValidationCheck("not_empty", true, |bars|)];
    var nanCount := CountNonFiniteValues(bars, nonFinite);
    checks := checks + [ValidationCheck("no_nulls", nanCount == 0, nanCount)];
    var extreme := CountExtremeMoves(bars);
    checks := checks + [ValidationCheck("price_sanity", extreme == 0, extreme)];
    var negVol := CountNegativeVolumes(bars);
    checks := checks + [ValidationCheck("volume_sanity", negVol == 0, negVol)];
    var outOfOrder := CountOutOfOrder(bars);
    checks := checks + [ValidationCheck("timestamp_order", outOfOrder == 0, outOfOrder)];
    var largeGaps := CountIntradayGaps(bars);
    checks := checks + [ValidationCheck("gap_detection", largeGaps <= MaxIntradayGaps, largeGaps)];
    var inconsistent := CountInconsistentBars(bars);
    checks := checks + [ValidationCheck("ohlc_consistency", inconsistent == 0, inconsistent)];
    result := ValidationResult(checks);
  }

  /** The `no_nulls` loops: every NaN or infinite open, high, low, close and volume. */
  method CountNonFiniteValues(bars: seq<Bar>, nonFinite: real -> bool) returns (nanCount: nat)
    ensures nanCount == NonFiniteTotal(bars, |bars|, nonFinite)
  {
    nanCount := 0;
    var k := 0;
    while k < |bars|
      invariant 0 <= k <= |bars|
      invariant nanCount == NonFiniteTotal(bars, k, nonFinite)
    {
      var vals := Ohlcv(bars[k]);
      var j := 0;
      var inBar := 0;
      while j < |vals|
        invariant 0 <= j <= |vals|
        invariant inBar == CountNonFinite(vals[..j], nonFinite)
      {
        assert vals[..j + 1][..j] == vals[..j];
        if nonFinite(vals[j]) {
          inBar := inBar + 1;
        }
        j := j + 1;
      }
      assert vals[..j] == vals;
      nanCount := nanCount + inBar;
      k := k + 1;
    }
  }

  /** The `price_sanity` loop. */
  method CountExtremeMoves(bars: seq<Bar>) returns (extreme: nat)
    requires bars != []
    ensures extreme == Count(ExtremeMove, bars, 1, |bars|)
  {
    extreme := 0;
    var k := 1;
    while k < |bars|
      invariant 1 <= k <= |bars|
      invariant extreme == Count(ExtremeMove, bars, 1, k)
    {
      var prevClose := bars[k - 1].close;
      if prevClose > 0.0 {
        var pct := Abs(bars[k].close - prevClose) / prevClose;
        if pct > 0.10 {
          extreme := extreme + 1;
        }
      }
      k := k + 1;
    }
  }

  /** The `volume_sanity` count. */
  method CountNegativeVolumes(bars: seq<Bar>) returns (negVol: nat)
    ensures negVol == Count(NegativeVolume, bars, 0, |bars|)
  {
    negVol := 0;
    var k := 0;
    while k < |bars|
      invariant 0 <= k <= |bars|
      invariant negVol == Count(NegativeVolume, bars, 0, k)
    {
      if bars[k].volume < 0.0 {
        negVol := negVol + 1;
      }
      k := k + 1;
    }
  }

  /** The `timestamp_order` loop. */
  method CountOutOfOrder(bars: seq<Bar>) returns (outOfOrder: nat)
    requires bars != []
    ensures outOfOrder == Count(OutOfOrder, bars, 1, |bars|)
  {
    outOfOrder := 0;
    var k := 1;
    while k < |bars|
      invariant 1 <= k <= |bars|
      invariant outOfOrder == Count(OutOfOrder, bars, 1, k)
    {
      if bars[k].timestamp <= bars[k - 1].timestamp {
        outOfOrder := outOfOrder + 1;
      }
      k := k + 1;
    }
  }

  /** The `gap_detection` loop. */
  method CountIntradayGaps(bars: seq<Bar>) returns (largeGaps: nat)
    requires bars != []
    ensures largeGaps == Count(IntradayGap, bars, 1, |bars|)
  {
    largeGaps := 0;
    var k := 1;
    while k < |bars|
      invariant 1 <= k <= |bars|
      invariant largeGaps == Count(IntradayGap, bars, 1, k)
    {
      var diff := bars[k].timestamp - bars[k - 1].timestamp;
      if diff > 300 {
        if DateOf(bars[k].timestamp) == DateOf(bars[k - 1].timestamp) {
          largeGaps := largeGaps + 1;
        }
      }
      k := k + 1;
    }
  }

  /** The `ohlc_consistency` loop; its `elif` chain counts each bar at most once. */
  method CountInconsistentBars(bars: seq<Bar>) returns (inconsistent: nat)
    ensures inconsistent == Count(Inconsistent, bars, 0, |bars|)
  {
    inconsistent := 0;
    var k := 0;
    while k < |bars|
      invariant 0 <= k <= |bars|
      invariant inconsistent == Count(Inconsistent, bars, 0, k)
    {
      var b := bars[k];
      if b.high < b.low {
        inconsistent := inconsistent + 1;
      } else if b.high < b.open || b.high < b.close {
        inconsistent := inconsistent + 1;
      } else if b.low > b.open || b.low > b.close {
        inconsistent := inconsistent + 1;
      }
      k := k + 1;
    }
  }

  // ------------------------------------------------------------------
  // What the checks mean
  // ------------------------------------------------------------------

  function CheckNames(r: ValidationResult): seq<string>
  {
    seq(|r.checks|, i requires 0 <= i < |r.checks| => r.checks[i].name)
  }

  /** An empty series yields the single failing `not_empty` check. */
  lemma EmptySeriesFailsOnly(nonFinite: real -> bool)
    ensures Validation([], nonFinite).checks == [ValidationCheck("not_empty", false, 0)]
    ensures !Validation([], nonFinite).Passed()
  {
    assert !Validation([], nonFinite).checks[0].passed;
  }

  /** A non-empty series yields the seven checks in their fixed order, `not_empty` passing. */
  lemma NonEmptySeriesChecks(bars: seq<Bar>, nonFinite: real -> bool)
    requires bars != []
    ensures CheckNames(Validation(bars, nonFinite))
         == ["not_empty", "no_nulls", "price_sanity", "volume_sanity",
             "timestamp_order", "gap_detection", "ohlc_consistency"]
    ensures Validation(bars, nonFinite).checks[0].passed
  {
  }

  lemma NoNullsMeaning(bars: seq<Bar>, nonFinite: real -> bool)
    requires bars != []
    ensures !Validation(bars, nonFinite).checks[1].passed
        <==> exists i, j :: 0 <= i < |bars| && 0 <= j < 5 && nonFinite(Ohlcv(bars[i])[j])
  {
    NonFiniteTotalPositive(bars, |bars|, nonFinite);
  }

  /** `price_sanity` fails iff some close moves more than 10% from a positive previous close. */
  lemma PriceSanityMeaning(bars: seq<Bar>, nonFinite: real -> bool)
    requires bars != []
    ensures !Validation(bars, nonFinite).checks[2].passed
        <==> exists i :: 1 <= i < |bars| && bars[i - 1].close > 0.0
                         && Abs(bars[i].close - bars[i - 1].close) > 0.10 * bars[i - 1].close
  {
    CountPositive(ExtremeMove, bars, 1, |bars|);
    forall i | 1 <= i < |bars| && bars[i - 1].close > 0.0
      ensures Holds(ExtremeMove, bars, i)
          <==> Abs(bars[i].close - bars[i - 1].close) > 0.10 * bars[i - 1].close
    {
      RatioAbove(Abs(bars[i].close - bars[i - 1].close), bars[i - 1].close);
    }
  }

  lemma RatioAbove(x: real, p: real)
    requires p > 0.0
    ensures x / p > 0.10 <==> x > 0.10 * p
  {
    assert x == (x / p) * p;
  }

  lemma VolumeSanityMeaning(bars: seq<Bar>, nonFinite: real -> bool)
    requires bars != []
    ensures !Validation(bars, nonFinite).checks[3].passed
        <==> exists i :: 0 <= i < |bars| && bars[i].volume < 0.0
  {
    CountPositive(NegativeVolume, bars, 0, |bars|);
    if exists i :: 0 <= i < |bars| && bars[i].volume < 0.0 {
      var i :| 0 <= i < |bars| && bars[i].volume < 0.0;
      assert Holds(NegativeVolume, bars, i);
    }
  }

  /** `timestamp_order` requires strictly increasing timestamps. */
  lemma TimestampOrderMeaning(bars: seq<Bar>, nonFinite: real -> bool)
    requires bars != []
    ensures Validation(bars, nonFinite).checks[4].passed
        <==> forall i :: 1 <= i < |bars| ==> bars[i - 1].timestamp < bars[i].timestamp
  {
    CountPositive(OutOfOrder, bars, 1, |bars|);
    if !Validation(bars, nonFinite).checks[4].passed {
      var i :| 1 <= i < |bars| && Holds(OutOfOrder, bars, i);
      assert bars[i].timestamp <= bars[i - 1].timestamp;
    } else {
      forall i | 1 <= i < |bars|
        ensures bars[i - 1].timestamp < bars[i].timestamp
      {
        assert !Holds(OutOfOrder, bars, i);
      }
    }
  }

  /** `gap_detection` fails iff more than ten adjacent pairs are same-day gaps over five minutes. */
  lemma GapDetectionMeaning(bars: seq<Bar>, nonFinite: real -> bool)
    requires bars != []
    ensures !Validation(bars, nonFinite).checks[5].passed <==> Count(IntradayGap, bars, 1, |bars|) > 10
  {
  }

  /** Pairs on different calendar dates never count as gaps, so such a series passes the gap check. */
  lemma OvernightGapsIgnored(bars: seq<Bar>, nonFinite: real -> bool)
    requires bars != []
    requires forall i :: 1 <= i < |bars| ==> DateOf(bars[i].timestamp) != DateOf(bars[i - 1].timestamp)
    ensures Validation(bars, nonFinite).checks[5].passed
  {
    CountPositive(IntradayGap, bars, 1, |bars|);
  }

  /** `ohlc_consistency` fails iff some bar is inconsistent; each bar counts at most once. */
  lemma OhlcConsistencyMeaning(bars: seq<Bar>, nonFinite: real -> bool)
    requires bars != []
    ensures !Validation(bars, nonFinite).checks[6].passed
        <==> exists i :: 0 <= i < |bars| && InconsistentBar(bars[i])
    ensures Validation(bars, nonFinite).checks[6].count <= |bars|
  {
    CountPositive(Inconsistent, bars, 0, |bars|);
    if exists i :: 0 <= i < |bars| && InconsistentBar(bars[i]) {
      var i :| 0 <= i < |bars| && InconsistentBar(bars[i]);
      assert Holds(Inconsistent, bars, i);
    }
  }

  /** A non-empty series passes exactly when each of the six counting checks passes. */
  lemma PassedAllChecks(bars: seq<Bar>, nonFinite: real -> bool)
    requires bars != []
    ensures var r := Validation(bars, nonFinite);
            r.Passed() <==> r.checks[1].passed && r.checks[2].passed && r.checks[3].passed
                            && r.checks[4].passed && r.checks[5].passed && r.checks[6].passed
  {
    var r := Validation(bars, nonFinite);
    if r.checks[1].passed && r.checks[2].passed && r.checks[3].passed
       && r.checks[4].passed && r.checks[5].passed && r.checks[6].passed {
      forall i | 0 <= i < |r.checks| ensures r.checks[i].passed {
        assert i in {0, 1, 2, 3, 4, 5, 6};
      }
    }
  }

  /** A series passes exactly when it is non-empty and every condition holds. */
  lemma PassedMeaning(bars: seq<Bar>, nonFinite: real -> bool)
    ensures Validation(bars, nonFinite).Passed()
        <==> bars != []
             && (forall i, j :: 0 <= i < |bars| && 0 <= j < 5 ==> !nonFinite(Ohlcv(bars[i])[j]))
             && (forall i :: 1 <= i < |bars| ==> !Holds(ExtremeMove, bars, i))
             && (forall i :: 0 <= i < |bars| ==> bars[i].volume >= 0.0)
             && (forall i :: 1 <= i < |bars| ==> bars[i - 1].timestamp < bars[i].timestamp)
             && Count(IntradayGap, bars, 1, |bars|) <= MaxIntradayGaps
             && (forall i :: 0 <= i < |bars| ==> !InconsistentBar(bars[i]))
  {
    if bars == [] {
      EmptySeriesFailsOnly(nonFinite);
    } else {
      PassedAllChecks(bars, nonFinite);
      NoNullsMeaning(bars, nonFinite);
      CountPositive(ExtremeMove, bars, 1, |bars|);
      VolumeSanityMeaning(bars, nonFinite);
      TimestampOrderMeaning(bars, nonFinite);
      OhlcConsistencyMeaning(bars, nonFinite);
    }
  }

  // ------------------------------------------------------------------
  // Quotes
  // ------------------------------------------------------------------

  /**
   * `validate_quote`: both sides positive, not crossed, and a spread of at
   * most 10% of the midpoint.
   */
  function ValidateQuote(q: Quote): (ok: bool)
    ensures ok <==> q.bidPrice > 0.0 && q.askPrice > 0.0 && q.askPrice >= q.bidPrice
                    && q.Spread() <= 0.10 * q.Mid()
  {
    if q.bidPrice <= 0.0 || q.askPrice <= 0.0 then false
    else if q.askPrice < q.bidPrice then false
    else
      var mid := q.Mid();
      RatioAbove(q.Spread(), mid);
      !(mid > 0.0 && q.Spread() / mid > 0.10)
  }
}

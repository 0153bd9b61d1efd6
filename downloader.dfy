/**
 * The candle-size rule of `Downloader.historical_data`: the exchange returns
 * at most `MaxCandles` candles per request and accepts only the listed
 * granularities (in seconds), so the smallest granularity that covers the
 * requested period in at most `MaxCandles` candles is chosen.
 */
module Downloader {
  import opened Wrappers

  const MaxCandles: int := 300
  const AllowedGranularities: seq<int> := [60, 300, 900, 3600, 21600, 86400]

  predicate Increasing(gs: seq<int>)
  {
    forall i, j :: 0 <= i < j < |gs| ==> gs[i] < gs[j]
  }

  /** The comprehension `[g for g in gs if g >= bound]`, which keeps the order. */
  function AtLeast(gs: seq<int>, bound: real): (r: seq<int>)
    ensures forall g :: g in r <==> g in gs && g as real >= bound
    ensures Increasing(gs) ==> Increasing(r)
  {
    if gs == [] then []
    else
      var rest := AtLeast(gs[1..], bound);
      assert forall g :: g in rest ==> g in gs[1..];
      assert Increasing(gs) ==> forall j :: 0 <= j < |rest| ==> gs[0] < rest[j] by {
        if Increasing(gs) {
          forall j | 0 <= j < |rest| ensures gs[0] < rest[j] {
            assert rest[j] in gs[1..];
            var k :| 0 <= k < |gs[1..]| && gs[1..][k] == rest[j];
            assert gs[k + 1] == rest[j];
          }
        }
      }
      if gs[0] as real >= bound then [gs[0]] + rest else rest
  }

  /**
   * The granularity chosen for a period of `durationSeconds` seconds, or the
   * "Period is too large" error when even the largest one needs more than
   * `MaxCandles` candles. A negative duration (end before start) selects the
   * smallest granularity.
   */
  function SelectGranularity(durationSeconds: real): (r: Result<int>)
    ensures r.Failure? <==> durationSeconds / MaxCandles as real > 86400.0
    ensures r.Failure? ==> r.error == PeriodTooLarge
    ensures r.Success? ==> r.value in AllowedGranularities
    ensures r.Success? ==> r.value as real >= durationSeconds / MaxCandles as real
    ensures r.Success? ==> forall g :: g in AllowedGranularities && g as real >= durationSeconds / MaxCandles as real ==> r.value <= g
  {
    var minGranularity := durationSeconds / MaxCandles as real;
    var valid := AtLeast(AllowedGranularities, minGranularity);
    assert Increasing(AllowedGranularities);
    assert 86400 in AllowedGranularities;
    assert forall g :: g in AllowedGranularities ==> g <= 86400;
    if valid == [] then Failure(PeriodTooLarge)
    else
      assert valid[0] in valid && forall g :: g in valid ==> valid[0] <= g;
      Success(valid[0])
  }

  /** The chosen granularity yields at most `MaxCandles` candles for the period. */
  lemma AtMostMaxCandles(durationSeconds: real)
    requires SelectGranularity(durationSeconds).Success?
    ensures durationSeconds <= (SelectGranularity(durationSeconds).value * MaxCandles) as real
  {
  }

  /**
   * A longer period never gets a smaller granularity, and if the longer one
   * is accepted so is the shorter one.
   */
  lemma {:induction false} SelectGranularityMonotone(d1: real, d2: real)
    requires d1 <= d2 && SelectGranularity(d2).Success?
    ensures SelectGranularity(d1).Success?
    ensures SelectGranularity(d1).value <= SelectGranularity(d2).value
  {
    var g2 := SelectGranularity(d2).value;
    assert d1 / MaxCandles as real <= d2 / MaxCandles as real;
    assert g2 as real >= d1 / MaxCandles as real;
  }

  /** Any period of at most five hours (300 one-minute candles) uses one-minute candles. */
  lemma ShortPeriodsUseMinutes(durationSeconds: real)
    requires durationSeconds <= 18000.0
    ensures SelectGranularity(durationSeconds) == Success(60)
  {
    var r := SelectGranularity(durationSeconds);
    assert 60 in AllowedGranularities;
    assert r.value <= 60;
  }
}

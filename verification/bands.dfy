/** The SuperTrendBand helper indicator of algo.py: raw bands around the bar
    midpoint and the ratcheted "final" bands built from them one bar at a time. */
module Bands {

  /** The fields of one price bar the indicator reads (open and volume are unused). */
  datatype Bar = Bar(high: real, low: real, close: real)

  /** An upper/lower band pair at one bar. */
  datatype BandPair = BandPair(upper: real, lower: real)

  /** The indicator's parameters; the source's defaults are period 7, multiplier 3. */
  datatype Params = Params(period: nat, multiplier: real)

  /** The input series: the bars and one ATR value per bar. The ATR itself is
      computed by the framework and is taken here as given. */
  datatype Feed = Feed(bars: seq<Bar>, atr: seq<real>) {
    predicate Valid() {
      |atr| == |bars|
    }

    predicate AtrNonNegative() {
      forall i :: 0 <= i < |atr| ==> atr[i] >= 0.0
    }
  }

  function Min(a: real, b: real): real { if a <= b then a else b }

  function Max(a: real, b: real): real { if a >= b then a else b }

  /** The raw bands of one bar: midpoint plus and minus multiplier times ATR.
      The two equations below determine the pair uniquely. */
  function BasicBands(bar: Bar, atr: real, multiplier: real): (r: BandPair)
    ensures r.upper + r.lower == bar.high + bar.low
    ensures r.upper - r.lower == 2.0 * multiplier * atr
    ensures atr >= 0.0 && multiplier >= 0.0 ==> r.lower <= r.upper
  {
    var mid := (bar.high + bar.low) / 2.0;
    var width := atr * multiplier;
    assert atr >= 0.0 && multiplier >= 0.0 ==> width >= 0.0;
    BandPair(mid + width, mid - width)
  }

  /** The raw bands at bar `i` of a feed. */
  function BasicAt(f: Feed, p: Params, i: nat): BandPair
    requires f.Valid() && i < |f.bars|
  {
    BasicBands(f.bars[i], f.atr[i], p.multiplier)
  }

  /** One step of the final upper band: the new raw band replaces the
      previous final band when it is lower, or when the previous close broke
      above the previous final band. So the band only tightens downwards,
      except that a breakout resets it to the raw band. */
  function FinalUpperStep(basicUpper: real, prevUpper: real, prevClose: real): (r: real)
    ensures r == basicUpper || r == prevUpper
    ensures r <= basicUpper
    ensures prevClose > prevUpper ==> r == basicUpper
    ensures prevClose <= prevUpper ==> r == Min(basicUpper, prevUpper)
    ensures r > prevUpper ==> prevClose > prevUpper
  {
    if basicUpper < prevUpper || prevClose > prevUpper then basicUpper else prevUpper
  }

  /** One step of the final lower band, the mirror image of FinalUpperStep:
      it only tightens upwards, except that a breakdown below the previous
      final band resets it to the raw band. */
  function FinalLowerStep(basicLower: real, prevLower: real, prevClose: real): (r: real)
    ensures r == basicLower || r == prevLower
    ensures r >= basicLower
    ensures prevClose < prevLower ==> r == basicLower
    ensures prevClose >= prevLower ==> r == Max(basicLower, prevLower)
    ensures r < prevLower ==> prevClose < prevLower
  {
    if basicLower > prevLower || prevClose < prevLower then basicLower else prevLower
  }

  /** The final bands at bar `i`. The first bar the indicator sees is bar
      `period`, where the final bands are the raw ones; every later bar is one
      step of the recurrence from the bar before. */
  function FinalBands(f: Feed, p: Params, i: nat): (r: BandPair)
    requires f.Valid() && p.period <= i < |f.bars|
    ensures r.upper <= BasicAt(f, p, i).upper
    ensures r.lower >= BasicAt(f, p, i).lower
    decreases i
  {
    var basic := BasicAt(f, p, i);
    if i == p.period then basic
    else
      var prev := FinalBands(f, p, i - 1);
      var close := f.bars[i - 1].close;
      BandPair(FinalUpperStep(basic.upper, prev.upper, close),
               FinalLowerStep(basic.lower, prev.lower, close))
  }

  /** At the bootstrap bar the final bands are the raw bands; with a
      non-negative ATR and multiplier the upper one is not below the lower one. */
  lemma Bootstrap(f: Feed, p: Params)
    requires f.Valid() && p.period < |f.bars|
    ensures FinalBands(f, p, p.period) == BasicAt(f, p, p.period)
    ensures f.AtrNonNegative() && p.multiplier >= 0.0 ==>
              FinalBands(f, p, p.period).lower <= FinalBands(f, p, p.period).upper
  {
  }

  /** After the bootstrap, each final upper band is either the new raw band or
      the previous final band, and it rises only after a close above the
      previous final upper band. */
  lemma UpperRatchet(f: Feed, p: Params, i: nat)
    requires f.Valid() && p.period < i < |f.bars|
    ensures FinalBands(f, p, i).upper == BasicAt(f, p, i).upper
         || FinalBands(f, p, i).upper == FinalBands(f, p, i - 1).upper
    ensures f.bars[i - 1].close <= FinalBands(f, p, i - 1).upper ==>
              FinalBands(f, p, i).upper <= FinalBands(f, p, i - 1).upper
  {
  }

  /** The mirror image of UpperRatchet: the final lower band falls only after
      a close below the previous final lower band. */
  lemma LowerRatchet(f: Feed, p: Params, i: nat)
    requires f.Valid() && p.period < i < |f.bars|
    ensures FinalBands(f, p, i).lower == BasicAt(f, p, i).lower
         || FinalBands(f, p, i).lower == FinalBands(f, p, i - 1).lower
    ensures f.bars[i - 1].close >= FinalBands(f, p, i - 1).lower ==>
              FinalBands(f, p, i).lower >= FinalBands(f, p, i - 1).lower
  {
  }

  /** No close in bars j..k-1 broke above the final upper band of its bar. */
  predicate NoUpperBreakout(f: Feed, p: Params, j: nat, k: nat)
    requires f.Valid() && p.period <= j <= k < |f.bars|
    decreases k
  {
    k == j || (NoUpperBreakout(f, p, j, k - 1) && f.bars[k - 1].close <= FinalBands(f, p, k - 1).upper)
  }

  /** No close in bars j..k-1 broke below the final lower band of its bar. */
  predicate NoLowerBreakdown(f: Feed, p: Params, j: nat, k: nat)
    requires f.Valid() && p.period <= j <= k < |f.bars|
    decreases k
  {
    k == j || (NoLowerBreakdown(f, p, j, k - 1) && f.bars[k - 1].close >= FinalBands(f, p, k - 1).lower)
  }

  /** Reference value: the smallest of the final upper band at bar j and the
      raw upper bands of bars j+1..k. */
  function RunningMinUpper(f: Feed, p: Params, j: nat, k: nat): (r: real)
    requires f.Valid() && p.period <= j <= k < |f.bars|
    ensures r <= FinalBands(f, p, j).upper
    ensures forall t :: j < t <= k ==> r <= BasicAt(f, p, t).upper
    decreases k
  {
    if k == j then FinalBands(f, p, j).upper
    else Min(RunningMinUpper(f, p, j, k - 1), BasicAt(f, p, k).upper)
  }

  /** Reference value: the largest of the final lower band at bar j and the
      raw lower bands of bars j+1..k. */
  function RunningMaxLower(f: Feed, p: Params, j: nat, k: nat): (r: real)
    requires f.Valid() && p.period <= j <= k < |f.bars|
    ensures r >= FinalBands(f, p, j).lower
    ensures forall t :: j < t <= k ==> r >= BasicAt(f, p, t).lower
    decreases k
  {
    if k == j then FinalBands(f, p, j).lower
    else Max(RunningMaxLower(f, p, j, k - 1), BasicAt(f, p, k).lower)
  }

  /** Between breakouts the final upper band is a running minimum: over a
      stretch j..k with no close above the band, the band at k is the
      smallest of its value at j and the raw upper bands since. */
  lemma {:induction false} UpperRunningMin(f: Feed, p: Params, j: nat, k: nat)
    requires f.Valid() && p.period <= j <= k < |f.bars|
    requires NoUpperBreakout(f, p, j, k)
    ensures FinalBands(f, p, k).upper == RunningMinUpper(f, p, j, k)
    decreases k
  {
    if k > j {
      UpperRunningMin(f, p, j, k - 1);
    }
  }

  /** Between breakdowns the final lower band is a running maximum, the
      mirror image of UpperRunningMin. */
  lemma {:induction false} LowerRunningMax(f: Feed, p: Params, j: nat, k: nat)
    requires f.Valid() && p.period <= j <= k < |f.bars|
    requires NoLowerBreakdown(f, p, j, k)
    ensures FinalBands(f, p, k).lower == RunningMaxLower(f, p, j, k)
    decreases k
  {
    if k > j {
      LowerRunningMax(f, p, j, k - 1);
    }
  }
}

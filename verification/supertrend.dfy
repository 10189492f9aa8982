/** The SuperTrend indicator of algo.py: a line that follows one of the two
    final bands and flips to the other one when the close crosses it. */
module Trend {
  import opened Options
  import opened Bands

  /** Which final band the line is following. The source keeps no such tag;
      it recovers the band by comparing the previous value with both bands. */
  datatype Tracking = Upper | Lower

  /** A tagged line value: the band followed and its value. */
  datatype TrendState = TrendState(tag: Tracking, value: real)

  /** The band of `bands` that `tag` names. */
  function BandOf(tag: Tracking, bands: BandPair): real
  {
    match tag
    case Upper => bands.upper
    case Lower => bands.lower
  }

  /** The flip rule with an explicit tag: a line on the upper band stays there
      while the close is at or below it and otherwise flips to the lower band;
      a line on the lower band stays there while the close is at or above it
      and otherwise flips to the upper band. */
  function TaggedStep(tag: Tracking, cur: BandPair, close: real): (r: TrendState)
    ensures r.value == BandOf(r.tag, cur)
    ensures tag == Upper ==> (r.tag == Upper <==> close <= cur.upper)
    ensures tag == Lower ==> (r.tag == Lower <==> close >= cur.lower)
  {
    match tag
    case Upper => if close <= cur.upper then TrendState(Upper, cur.upper) else TrendState(Lower, cur.lower)
    case Lower => if close >= cur.lower then TrendState(Lower, cur.lower) else TrendState(Upper, cur.upper)
  }

  /** One later bar of SuperTrend.next: two guarded updates run in order, the
      first when the previous value equals the previous upper band and the
      second when it equals the previous lower band. When both fire, the
      second one's value is kept. When neither fires the bar stays unset. */
  function Step(prev: real, prevBands: BandPair, cur: BandPair, close: real): (r: Option<real>)
    ensures r.Some? <==> prev == prevBands.upper || prev == prevBands.lower
    ensures r.Some? ==> r.value == cur.upper || r.value == cur.lower
    ensures prev == prevBands.lower ==> r == Some(TaggedStep(Lower, cur, close).value)
    ensures prev == prevBands.upper && prev != prevBands.lower ==>
              r == Some(TaggedStep(Upper, cur, close).value)
  {
    var afterUpper :=
      if prev == prevBands.upper then
        Some(if close <= cur.upper then cur.upper else cur.lower)
      else None;
    if prev == prevBands.lower then
      Some(if close >= cur.lower then cur.lower else cur.upper)
    else afterUpper
  }

  /** The SuperTrend line at bar `i`: the final upper band at the bootstrap
      bar, then one Step per bar. It is always defined, and it is always
      exactly one of the two final bands of its bar. */
  function Line(f: Feed, p: Params, i: nat): (r: Option<real>)
    requires f.Valid() && p.period <= i < |f.bars|
    ensures r.Some?
    ensures r.value == FinalBands(f, p, i).upper || r.value == FinalBands(f, p, i).lower
    ensures i == p.period ==> r.value == FinalBands(f, p, i).upper
    decreases i
  {
    if i == p.period then Some(FinalBands(f, p, i).upper)
    else
      var prev := Line(f, p, i - 1);
      Step(prev.value, FinalBands(f, p, i - 1), FinalBands(f, p, i), f.bars[i].close)
  }

  /** The reference line built with an explicit tag instead of equality tests,
      starting on the upper band at the bootstrap bar. */
  function TaggedLine(f: Feed, p: Params, i: nat): (r: TrendState)
    requires f.Valid() && p.period <= i < |f.bars|
    ensures r.value == BandOf(r.tag, FinalBands(f, p, i))
    decreases i
  {
    if i == p.period then TrendState(Upper, FinalBands(f, p, i).upper)
    else TaggedStep(TaggedLine(f, p, i - 1).tag, FinalBands(f, p, i), f.bars[i].close)
  }

  /** The two final bands of bars period..i-1 never coincide. */
  predicate DistinctBandsBefore(f: Feed, p: Params, i: nat)
    requires f.Valid() && p.period <= i <= |f.bars|
  {
    forall t :: p.period <= t < i ==> FinalBands(f, p, t).upper != FinalBands(f, p, t).lower
  }

  /** Recovering the followed band by equality gives the same line as keeping
      an explicit tag, as long as the two final bands never coincided on an
      earlier bar. */
  lemma {:induction false} LineMatchesTagged(f: Feed, p: Params, i: nat)
    requires f.Valid() && p.period <= i < |f.bars|
    requires DistinctBandsBefore(f, p, i)
    ensures Line(f, p, i) == Some(TaggedLine(f, p, i).value)
    decreases i
  {
    if i > p.period {
      assert DistinctBandsBefore(f, p, i - 1);
      LineMatchesTagged(f, p, i - 1);
      var prevBands := FinalBands(f, p, i - 1);
      assert prevBands.upper != prevBands.lower;
    }
  }

  /** When the two final bands coincide on the previous bar, the line behaves
      as a line on the lower band: the second guarded update wins. */
  lemma TieFollowsLower(f: Feed, p: Params, i: nat)
    requires f.Valid() && p.period < i < |f.bars|
    requires FinalBands(f, p, i - 1).upper == FinalBands(f, p, i - 1).lower
    ensures Line(f, p, i) == Some(TaggedStep(Lower, FinalBands(f, p, i), f.bars[i].close).value)
  {
  }

  /** While the line follows the upper band it stays there exactly when the
      close is at or below that band; a close above it moves the line to the
      lower band. */
  lemma FlipFromUpper(f: Feed, p: Params, i: nat)
    requires f.Valid() && p.period < i < |f.bars|
    requires Line(f, p, i - 1).value == FinalBands(f, p, i - 1).upper
    requires FinalBands(f, p, i - 1).upper != FinalBands(f, p, i - 1).lower
    ensures f.bars[i].close <= FinalBands(f, p, i).upper ==>
              Line(f, p, i).value == FinalBands(f, p, i).upper
    ensures f.bars[i].close > FinalBands(f, p, i).upper ==>
              Line(f, p, i).value == FinalBands(f, p, i).lower
  {
  }

  /** While the line follows the lower band it stays there exactly when the
      close is at or above that band; a close below it moves the line to the
      upper band. */
  lemma FlipFromLower(f: Feed, p: Params, i: nat)
    requires f.Valid() && p.period < i < |f.bars|
    requires Line(f, p, i - 1).value == FinalBands(f, p, i - 1).lower
    ensures f.bars[i].close >= FinalBands(f, p, i).lower ==>
              Line(f, p, i).value == FinalBands(f, p, i).lower
    ensures f.bars[i].close < FinalBands(f, p, i).lower ==>
              Line(f, p, i).value == FinalBands(f, p, i).upper
  {
  }
}

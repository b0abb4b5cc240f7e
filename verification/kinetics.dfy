/** Rate laws shared by both process models: Monod saturation, substrate
    consumption, the feed-start switch and the dilution term of the fed
    phase. Fractional powers are not computed here: the models receive
    `powf` as a parameter and leave it uninterpreted. */
module Kinetics {

  const MINUTES_PER_DAY: real := 24.0 * 60.0

  /** The Monod factor `s / (ks + s)`. */
  function Monod(s: real, ks: real): real
    requires ks + s != 0.0
  {
    s / (ks + s)
  }

  /** Rate of change of a substrate consumed by the cells,
      `-k * vcd * Monod(s, ks)`. */
  function Consumption(k: real, vcd: real, s: real, ks: real): real
    requires ks + s != 0.0
  {
    -k * vcd * Monod(s, ks)
  }

  /** Feed starts `feedDays` days into the run; `x` is in minutes. */
  predicate FeedStarted(feedDays: real, x: real)
  {
    !(x < feedDays * MINUTES_PER_DAY)
  }

  /** Fraction of the culture volume replaced per minute in the fed phase. */
  function Dilution(fi_v: real, v: real): real
    requires v != 0.0
  {
    fi_v / v
  }

  /** A substrate's rate in the fed phase: the feed brings in
      `feedConc - conc` per unit of dilution. */
  function WithFeed(rate: real, feedConc: real, conc: real, fi_v: real, v: real): real
    requires v != 0.0
  {
    rate + (feedConc - conc) * Dilution(fi_v, v)
  }

  /** The cell-density rate in the fed phase: dilution washes out `vcd`
      per unit of dilution. */
  function WithDilution(rate: real, vcd: real, fi_v: real, v: real): real
    requires v != 0.0
  {
    rate - vcd * Dilution(fi_v, v)
  }

  /** Rate of change of the volume: the feed rate once feeding. */
  function VolumeRate(fed: bool, fi_v: real): real
  {
    if fed then fi_v else 0.0
  }

  /** Rate of change of the cell density: growth, diluted once feeding. */
  function CellRate(fed: bool, growth: real, fi_v: real, v: real, vcd: real): real
    requires fed ==> v != 0.0
  {
    if fed then WithDilution(growth, vcd, fi_v, v) else growth
  }

  /** Rate of change of a substrate at concentration `s`: consumption,
      plus the feed term once feeding. */
  function SubstrateRate(fed: bool, k: real, ks: real, feedConc: real, fi_v: real, v: real, vcd: real, s: real): real
    requires ks + s != 0.0 && (fed ==> v != 0.0)
  {
    if fed then WithFeed(Consumption(k, vcd, s, ks), feedConc, s, fi_v, v) else Consumption(k, vcd, s, ks)
  }

  /** The fed-phase update of both models, applied to rates already
      holding the kinetic terms: the volume grows at `fi_v`, the cells are
      diluted and each substrate is pulled towards its feed concentration.
      Entries from 4 on are left alone. */
  method ApplyFeed(fi_v: real, gluc_feed: real, glut_feed: real,
                   v: real, vcd: real, gluc: real, glut: real, dy: array<real>)
    requires dy.Length >= 4 && v != 0.0
    modifies dy
    ensures dy[0] == fi_v
    ensures dy[1] == WithDilution(old(dy[1]), vcd, fi_v, v)
    ensures dy[2] == WithFeed(old(dy[2]), gluc_feed, gluc, fi_v, v)
    ensures dy[3] == WithFeed(old(dy[3]), glut_feed, glut, fi_v, v)
    ensures forall i :: 4 <= i < dy.Length ==> dy[i] == old(dy[i])
  {
    dy[0] := fi_v;
    dy[1] := WithDilution(dy[1], vcd, fi_v, v);
    dy[2] := WithFeed(dy[2], gluc_feed, gluc, fi_v, v);
    dy[3] := WithFeed(dy[3], glut_feed, glut, fi_v, v);
  }

  lemma MonodBounds(s: real, ks: real)
    requires s >= 0.0 && ks + s > 0.0
    ensures 0.0 <= Monod(s, ks)
    ensures ks > 0.0 ==> Monod(s, ks) < 1.0
    ensures s == 0.0 ==> Monod(s, ks) == 0.0
  {
  }

  /** A consumed substrate never increases: its rate is at most zero for
      non-negative `k`, `vcd` and `s` and a positive denominator. */
  lemma ConsumptionNonPositive(k: real, vcd: real, s: real, ks: real)
    requires k >= 0.0 && vcd >= 0.0 && s >= 0.0 && ks + s > 0.0
    ensures Consumption(k, vcd, s, ks) <= 0.0
  {
    MonodBounds(s, ks);
  }

  /** Before the feed starts a substrate can only be consumed. */
  lemma SubstrateFallsBeforeFeed(k: real, ks: real, feedConc: real, fi_v: real, v: real, vcd: real, s: real)
    requires k >= 0.0 && vcd >= 0.0 && s >= 0.0 && ks + s > 0.0
    ensures SubstrateRate(false, k, ks, feedConc, fi_v, v, vcd, s) <= 0.0
  {
    ConsumptionNonPositive(k, vcd, s, ks);
  }

  /** Once feeding, a cell-free broth of positive volume moves a substrate
      towards the feed concentration: it rises below that concentration,
      falls above it and stays put at it. */
  lemma FeedDrivesSubstrateToFeedLevel(k: real, ks: real, feedConc: real, fi_v: real, v: real, s: real)
    requires ks + s != 0.0 && v > 0.0 && fi_v > 0.0
    ensures s < feedConc ==> SubstrateRate(true, k, ks, feedConc, fi_v, v, 0.0, s) > 0.0
    ensures s > feedConc ==> SubstrateRate(true, k, ks, feedConc, fi_v, v, 0.0, s) < 0.0
    ensures s == feedConc ==> SubstrateRate(true, k, ks, feedConc, fi_v, v, 0.0, s) == 0.0
  {
    assert Dilution(fi_v, v) > 0.0;
    assert Consumption(k, 0.0, s, ks) == 0.0;
  }

  /** The volume rate is a step in time: zero before the feed day, `fi_v`
      at every time from the feed start on, and so, for a non-negative
      feed rate, never decreasing. */
  lemma VolumeRateIsFeedStep(feedDays: real, fi_v: real, x: real, x': real)
    requires x <= x'
    ensures x < feedDays * MINUTES_PER_DAY ==> VolumeRate(FeedStarted(feedDays, x), fi_v) == 0.0
    ensures FeedStarted(feedDays, x) ==> VolumeRate(FeedStarted(feedDays, x'), fi_v) == fi_v
    ensures fi_v >= 0.0 ==> VolumeRate(FeedStarted(feedDays, x), fi_v) <= VolumeRate(FeedStarted(feedDays, x'), fi_v)
  {
  }
}

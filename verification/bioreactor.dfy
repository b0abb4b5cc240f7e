/** The five-channel bioreactor model that the desktop front end
    integrates: volume, viable cell density, glucose, glutamine and
    dissolved oxygen (channels 0 to 4). It has no oxygen controller and
    no product channel; feed gating and the kinetic terms are those of
    the seven-channel model. */
module LegacyModel {
  import opened Kinetics

  const STATE_LEN: nat := 5

  /** `powf` with a fractional exponent, supplied by the caller. */
  type Pow = (real, real) -> real

  datatype Bioreactor = Bioreactor(
    mu: real,
    n_vcd: real,
    ks_gluc: real,
    k_gluc: real,
    gluc_feed: real,
    ks_glut: real,
    k_glut: real,
    glut_feed: real,
    feed_min: real,
    fi_v: real,
    k_do: real)

  /** Stores every argument in the field of the same name; note that the
      argument order (with `k_do` sixth) differs from the field order. */
  function New(mu: real, n_vcd: real, ks_gluc: real, k_gluc: real, gluc_feed: real, k_do: real,
               ks_glut: real, k_glut: real, glut_feed: real, feed_min: real, fi_v: real): (b: Bioreactor)
    ensures b.mu == mu && b.n_vcd == n_vcd && b.k_do == k_do
    ensures b.ks_gluc == ks_gluc && b.k_gluc == k_gluc && b.gluc_feed == gluc_feed
    ensures b.ks_glut == ks_glut && b.k_glut == k_glut && b.glut_feed == glut_feed
    ensures b.feed_min == feed_min && b.fi_v == fi_v
  {
    Bioreactor(mu, n_vcd, ks_gluc, k_gluc, gluc_feed, ks_glut, k_glut, glut_feed, feed_min, fi_v, k_do)
  }

  /** Specific growth rate limited by glucose, glutamine and oxygen. */
  function GrowthRate(b: Bioreactor, gluc: real, glut: real, dO: real): real
    requires b.ks_gluc + gluc != 0.0 && b.ks_glut + glut != 0.0 && b.k_do + dO != 0.0
  {
    b.mu * Monod(gluc, b.ks_gluc) * Monod(glut, b.ks_glut) * Monod(dO, b.k_do)
  }

  /** The growth term of the cell balance, `c_mu * vcd^n_vcd`. */
  function CellGrowth(b: Bioreactor, powf: Pow, vcd: real, gluc: real, glut: real, dO: real): real
    requires b.ks_gluc + gluc != 0.0 && b.ks_glut + glut != 0.0 && b.k_do + dO != 0.0
  {
    GrowthRate(b, gluc, glut, dO) * powf(vcd, b.n_vcd)
  }

  /** The oxygen balance as written, `-vcd*k_do*1e-3*DO/(DO+k_do) +
      k_do*1e-3*(9*DO)/(10*DO)`: the second ratio is always 0.9. */
  function OxygenRate(b: Bioreactor, vcd: real, dO: real): (r: real)
    requires dO != 0.0 && dO + b.k_do != 0.0
    ensures r == -vcd * b.k_do * 0.001 * (dO / (dO + b.k_do)) + 0.9 * b.k_do * 0.001
  {
    RatioIsNineTenths(dO);
    -vcd * b.k_do * 0.001 * (dO / (dO + b.k_do)) + b.k_do * 0.001 * ((9.0 * dO) / (10.0 * dO))
  }

  lemma RatioIsNineTenths(d: real)
    requires d != 0.0
    ensures (9.0 * d) / (10.0 * d) == 0.9
  {
  }

  /** The divisions of one derivative evaluation have nonzero divisors. */
  predicate Defined(b: Bioreactor, x: real, y: seq<real>)
    requires |y| == STATE_LEN
  {
    && b.ks_gluc + y[2] != 0.0
    && b.ks_glut + y[3] != 0.0
    && b.k_do + y[4] != 0.0
    && y[4] != 0.0
    && (FeedStarted(b.feed_min, x) ==> y[0] != 0.0)
  }

  /** `system`: reads the state `y` and fills all five entries of `dy`,
      adding the feed and dilution terms once feeding has started. */
  method System(b: Bioreactor, powf: Pow, x: real, y: array<real>, dy: array<real>)
    requires y.Length == STATE_LEN && dy.Length == STATE_LEN && y != dy
    requires Defined(b, x, y[..])
    modifies dy
    ensures dy[0] == VolumeRate(FeedStarted(b.feed_min, x), b.fi_v)
    ensures dy[1] == CellRate(FeedStarted(b.feed_min, x), CellGrowth(b, powf, y[1], y[2], y[3], y[4]), b.fi_v, y[0], y[1])
    ensures dy[2] == SubstrateRate(FeedStarted(b.feed_min, x), b.k_gluc, b.ks_gluc, b.gluc_feed, b.fi_v, y[0], y[1], y[2])
    ensures dy[3] == SubstrateRate(FeedStarted(b.feed_min, x), b.k_glut, b.ks_glut, b.glut_feed, b.fi_v, y[0], y[1], y[3])
    ensures dy[4] == OxygenRate(b, y[1], y[4])
  {
    var v, vcd, gluc, glut, dO := y[0], y[1], y[2], y[3], y[4];

    dy[1] := CellGrowth(b, powf, vcd, gluc, glut, dO);
    dy[2] := Consumption(b.k_gluc, vcd, gluc, b.ks_gluc);
    dy[3] := Consumption(b.k_glut, vcd, glut, b.ks_glut);
    dy[4] := OxygenRate(b, vcd, dO);

    if x < b.feed_min * MINUTES_PER_DAY {
      dy[0] := 0.0;
    } else {
      ApplyFeed(b.fi_v, b.gluc_feed, b.glut_feed, v, vcd, gluc, glut, dy);
    }
  }
}

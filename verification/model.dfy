/** The seven-channel process model of the fed-batch bioreactor: the
    parameter record with its constructors, and the derivative evaluation
    that embeds the dissolved-oxygen controller.

    State channels: 0 volume, 1 viable cell density (vcd), 2 glucose,
    3 glutamine, 4 dissolved oxygen concentration (c_O2), 5 oxygen gas flow
    (a controller output kept in the state), 6 product. Time `x` is in
    minutes. */
module ProcessModel {
  import opened Kinetics

  const FEED_RATE: real := 0.03
  /** Starting culture volume in litres. */
  const VOLUME: real := 45.0
  const STATE_LEN: nat := 7

  /** A state vector of the integrator. */
  type State = s: seq<real> | |s| == STATE_LEN witness [0.0, 0.0, 0.0, 0.0, 0.0, 0.0, 0.0]

  /** `powf` with a fractional exponent, supplied by the caller. */
  type Pow = (real, real) -> real

  datatype Bioreactor = Bioreactor(
    k_product: real,
    mu: real,
    n_vcd: real,
    ks_gluc: real,
    k_gluc: real,
    gluc_feed: real,
    ks_glut: real,
    k_glut: real,
    glut_feed: real,
    feed_min: real,
    fi_v: real,
    k_c_O2: real,
    pzv: real,
    air_flow: real,
    O2_min: real,
    k_O2: real,
    henry: real,
    c_O2_SAT: real,
    fi_O2_max: real,
    O2_flow_max: real,
    O2_feed_rate: real)

  /** Fraction of oxygen in air. */
  const AIR_O2: real := 0.21
  const O2_FEED_SCALE: real := 0.0000000001

  /** Builds a parameter record from its free parameters: the saturation
      concentration is derived from Henry's constant, the specific uptake
      rate is scaled by 1e-10 and `k_do` becomes `k_c_O2`. */
  function New(k_product: real, mu: real, n_vcd: real, ks_gluc: real, k_gluc: real, gluc_feed: real,
               k_do: real, ks_glut: real, k_glut: real, glut_feed: real, feed_min: real, fi_v: real,
               pzv: real, air_flow: real, O2_min: real, k_O2: real, henry: real, fi_O2_max: real,
               O2_flow_max: real, O2_feed_rate: real): (b: Bioreactor)
    ensures b.c_O2_SAT == henry * AIR_O2
    ensures b.O2_feed_rate == O2_feed_rate * O2_FEED_SCALE
    ensures b.k_c_O2 == k_do
    ensures b.k_product == k_product && b.mu == mu && b.n_vcd == n_vcd
    ensures b.ks_gluc == ks_gluc && b.k_gluc == k_gluc && b.gluc_feed == gluc_feed
    ensures b.ks_glut == ks_glut && b.k_glut == k_glut && b.glut_feed == glut_feed
    ensures b.feed_min == feed_min && b.fi_v == fi_v && b.pzv == pzv && b.air_flow == air_flow
    ensures b.O2_min == O2_min && b.k_O2 == k_O2 && b.henry == henry
    ensures b.fi_O2_max == fi_O2_max && b.O2_flow_max == O2_flow_max
  {
    Bioreactor(k_product, mu, n_vcd, ks_gluc, k_gluc, gluc_feed, ks_glut, k_glut, glut_feed, feed_min, fi_v,
               k_do, pzv, air_flow, O2_min, k_O2, henry, henry * AIR_O2, fi_O2_max, O2_flow_max,
               O2_feed_rate * O2_FEED_SCALE)
  }

  const DEFAULT_HENRY: real := 0.0016066

  /** The default process: feed from day 2 (minute 2880), 3 % of the
      volume per day, a saturation concentration derived from Henry's
      constant, and controller gains and a flow cap that keep the gas flow
      within `[0, O2_flow_max]` on top of a positive air flow. */
  function Default(): (b: Bioreactor)
    ensures b.c_O2_SAT == b.henry * AIR_O2 && b.c_O2_SAT > 0.0
    ensures b.fi_v == VOLUME * FEED_RATE / MINUTES_PER_DAY
    ensures forall x :: FeedStarted(b.feed_min, x) <==> x >= 2880.0
    ensures b.air_flow > 0.0 && b.k_O2 >= 0.0 && b.fi_O2_max >= 0.0 && b.O2_flow_max >= 0.0
  {
    Bioreactor(
      k_product := 0.001,
      mu := 0.001,
      n_vcd := 0.7,
      ks_gluc := 0.05,
      k_gluc := 0.0001,
      gluc_feed := 12.0,
      ks_glut := 0.05,
      k_glut := 0.0001,
      glut_feed := 7.0,
      feed_min := 2.0,
      fi_v := 45.0 * 0.03 / (24.0 * 60.0),
      k_c_O2 := 0.001,
      pzv := 13.0,
      air_flow := 0.5,
      O2_min := 25.0,
      k_O2 := 1.0,
      henry := DEFAULT_HENRY,
      c_O2_SAT := DEFAULT_HENRY * AIR_O2,
      fi_O2_max := 15.0,
      O2_flow_max := 15.0,
      O2_feed_rate := 1.9444)
  }

  /** `Default()` stores 1.9444 as the specific uptake rate without the
      1e-10 factor that `New` applies, so it equals the record `New` builds
      from 1.9444e10; its saturation concentration is derived from Henry's
      constant like any record built by `New`. */
  lemma DefaultAsNew()
    ensures Default() == New(0.001, 0.001, 0.7, 0.05, 0.0001, 12.0, 0.001, 0.05, 0.0001, 7.0, 2.0,
                             VOLUME * FEED_RATE / MINUTES_PER_DAY, 13.0, 0.5, 25.0, 1.0, DEFAULT_HENRY,
                             15.0, 15.0, 19444000000.0)
  {
  }

  /** The uptake rate of `Default()` is 1e10 times the one `New` stores
      for the same argument 1.9444, the value the simulation panel passes
      to `New` by default. */
  lemma DefaultUptakeUnscaled()
    ensures Default().O2_feed_rate ==
              10000000000.0 * New(0.001, 0.001, 0.7, 0.05, 0.0001, 12.0, 0.001, 0.05, 0.0001, 7.0, 2.0,
                                  VOLUME * FEED_RATE / MINUTES_PER_DAY, 13.0, 0.5, 25.0, 1.0, DEFAULT_HENRY,
                                  15.0, 15.0, 1.9444).O2_feed_rate
  {
  }

  /** The record used for calibration: `Default()` with the five kinetic
      parameters replaced. */
  function Fit(mu: real, ks_gluc: real, k_gluc: real, ks_glut: real, k_glut: real): (b: Bioreactor)
    ensures b.mu == mu && b.ks_gluc == ks_gluc && b.k_gluc == k_gluc
    ensures b.ks_glut == ks_glut && b.k_glut == k_glut
    ensures b.(mu := Default().mu, ks_gluc := Default().ks_gluc, k_gluc := Default().k_gluc,
               ks_glut := Default().ks_glut, k_glut := Default().k_glut) == Default()
  {
    var def := Default();
    def.(mu := mu, ks_gluc := ks_gluc, k_gluc := k_gluc, ks_glut := ks_glut, k_glut := k_glut)
  }

  /** Dissolved oxygen as a percentage of saturation, minus the set point
      taken from the other side: positive when oxygen is short. */
  function DoError(b: Bioreactor, c_O2: real): real
    requires b.c_O2_SAT != 0.0
  {
    b.O2_min - (c_O2 / b.c_O2_SAT) * 100.0
  }

  /** The controller's proportional output `k_O2 * error * fi_O2_max * 10`. */
  function ProposedFlow(b: Bioreactor, c_O2: real): real
    requires b.c_O2_SAT != 0.0
  {
    b.k_O2 * DoError(b, c_O2) * b.fi_O2_max * 10.0
  }

  /** The oxygen controller: proportional flow while oxygen is below the set
      point, capped at the maximum flow; off otherwise. */
  function ControllerFlow(b: Bioreactor, c_O2: real): (flow: real)
    requires b.c_O2_SAT != 0.0
    ensures DoError(b, c_O2) <= 0.0 ==> flow == 0.0
    ensures DoError(b, c_O2) > 0.0 ==> flow <= b.O2_flow_max && flow <= ProposedFlow(b, c_O2)
    ensures DoError(b, c_O2) > 0.0 ==> flow == b.O2_flow_max || flow == ProposedFlow(b, c_O2)
  {
    if DoError(b, c_O2) > 0.0 then
      var proposed := ProposedFlow(b, c_O2);
      if proposed > b.O2_flow_max then b.O2_flow_max else proposed
    else
      0.0
  }

  /** The gas flow stays within `[0, O2_flow_max]`: below the cap whenever
      the cap is non-negative, and non-negative when the gains are too. */
  lemma ControllerFlowBounds(b: Bioreactor, c_O2: real)
    requires b.c_O2_SAT != 0.0
    ensures b.O2_flow_max >= 0.0 ==> ControllerFlow(b, c_O2) <= b.O2_flow_max
    ensures b.k_O2 >= 0.0 && b.fi_O2_max >= 0.0 && b.O2_flow_max >= 0.0 ==> ControllerFlow(b, c_O2) >= 0.0
  {
  }

  /** With the default parameters the controller's flow stays within
      `[0, O2_flow_max]`, so the total gas flow is never zero and the
      transfer terms are defined at every oxygen concentration. */
  lemma DefaultGasFlowPositive(c_O2: real)
    ensures 0.0 <= ControllerFlow(Default(), c_O2) <= Default().O2_flow_max
    ensures Default().air_flow + ControllerFlow(Default(), c_O2) > 0.0
  {
  }

  /** Specific growth rate limited by glucose, glutamine and oxygen. */
  function GrowthRate(b: Bioreactor, gluc: real, glut: real, c_O2: real): real
    requires b.ks_gluc + gluc != 0.0 && b.ks_glut + glut != 0.0 && b.k_c_O2 + c_O2 != 0.0
  {
    b.mu * Monod(gluc, b.ks_gluc) * Monod(glut, b.ks_glut) * Monod(c_O2, b.k_c_O2)
  }

  /** The growth term of the cell balance, `c_mu * vcd^n_vcd`. */
  function CellGrowth(b: Bioreactor, powf: Pow, vcd: real, gluc: real, glut: real, c_O2: real): real
    requires b.ks_gluc + gluc != 0.0 && b.ks_glut + glut != 0.0 && b.k_c_O2 + c_O2 != 0.0
  {
    GrowthRate(b, gluc, glut, c_O2) * powf(vcd, b.n_vcd)
  }

  /** Without glucose or glutamine the cells do not grow. */
  lemma NoGrowthWithoutSubstrate(b: Bioreactor, powf: Pow, vcd: real, gluc: real, glut: real, c_O2: real)
    requires b.ks_gluc + gluc != 0.0 && b.ks_glut + glut != 0.0 && b.k_c_O2 + c_O2 != 0.0
    requires gluc == 0.0 || glut == 0.0
    ensures GrowthRate(b, gluc, glut, c_O2) == 0.0
    ensures CellGrowth(b, powf, vcd, gluc, glut, c_O2) == 0.0
  {
  }

  /** The volumetric mass-transfer coefficient at a total gas flow, with
      the correlation `1.3e-3 * pzv^1.1 * flow^0.9 / 60`. */
  function KLa(b: Bioreactor, powf: Pow, flowTotal: real): real
  {
    0.0013 * powf(b.pzv, 1.1) * powf(flowTotal, 0.9) / 60.0
  }

  /** Oxygen concentration in equilibrium with the gas: Henry's constant
      times the oxygen fraction of air at `air_flow` mixed with pure oxygen
      at `flow`. */
  function GasSaturation(b: Bioreactor, flow: real): real
    requires b.air_flow + flow != 0.0
  {
    b.henry * ((b.air_flow * AIR_O2 + flow) / (b.air_flow + flow))
  }

  /** Adding oxygen to the air raises the equilibrium concentration from
      that of air towards that of pure oxygen. */
  lemma GasSaturationBounds(b: Bioreactor, flow: real)
    requires b.air_flow > 0.0 && flow >= 0.0 && b.henry >= 0.0
    ensures b.henry * AIR_O2 <= GasSaturation(b, flow) <= b.henry
  {
    var frac := (b.air_flow * AIR_O2 + flow) / (b.air_flow + flow);
    DivBounds(b.air_flow * AIR_O2 + flow, b.air_flow + flow, AIR_O2, 1.0);
    MulLe(AIR_O2, frac, b.henry);
    MulLe(frac, 1.0, b.henry);
    assert GasSaturation(b, flow) == b.henry * frac;
  }

  lemma MulLe(a: real, b: real, c: real)
    requires a <= b && c >= 0.0
    ensures c * a <= c * b
  {
    assert c * (b - a) >= 0.0;
  }

  lemma DivBounds(n: real, d: real, lo: real, hi: real)
    requires d > 0.0 && lo * d <= n <= hi * d
    ensures lo <= n / d <= hi
  {
    var q := n / d;
    assert q * d == n;
    if q < lo {
      MulStrict(q, lo, d);
    }
    if q > hi {
      MulStrict(hi, q, d);
    }
  }

  lemma MulStrict(a: real, b: real, c: real)
    requires a < b && c > 0.0
    ensures a * c < b * c
  {
    assert (b - a) * c > 0.0;
  }

  /** Oxygen transfer rate from the gas phase at a given O2 flow: it drives
      the dissolved oxygen towards the gas saturation, so with a positive
      kLa it is positive below saturation, negative above it and zero at
      it. */
  function TransferRate(b: Bioreactor, powf: Pow, c_O2: real, flow: real): (r: real)
    requires b.air_flow + flow != 0.0
    ensures KLa(b, powf, b.air_flow + flow) > 0.0 ==>
              (r > 0.0 <==> c_O2 < GasSaturation(b, flow)) && (r < 0.0 <==> c_O2 > GasSaturation(b, flow))
    ensures c_O2 == GasSaturation(b, flow) ==> r == 0.0
  {
    var kLa := KLa(b, powf, b.air_flow + flow);
    var gap := GasSaturation(b, flow) - c_O2;
    ProductSign(kLa, gap);
    kLa * gap
  }

  lemma ProductSign(k: real, d: real)
    ensures d == 0.0 ==> k * d == 0.0
    ensures k > 0.0 ==> (k * d > 0.0 <==> d > 0.0) && (k * d < 0.0 <==> d < 0.0)
  {
  }

  /** Oxygen consumed by the cells per minute: proportional to the cell
      density, and never negative for non-negative density and rate. */
  function UptakeRate(b: Bioreactor, vcd: real): (r: real)
    ensures vcd == 0.0 ==> r == 0.0
    ensures vcd >= 0.0 && b.O2_feed_rate >= 0.0 ==> r >= 0.0
  {
    vcd * b.O2_feed_rate * 60.0
  }

  /** Rate of change of the dissolved oxygen: transfer from the gas at the
      controller's flow, less the cells' uptake while any oxygen is left.
      The cells only ever remove oxygen. */
  function OxygenRate(b: Bioreactor, powf: Pow, vcd: real, c_O2: real): (r: real)
    requires b.c_O2_SAT != 0.0 && b.air_flow + ControllerFlow(b, c_O2) != 0.0
    ensures c_O2 > 0.0 ==> r == TransferRate(b, powf, c_O2, ControllerFlow(b, c_O2)) - UptakeRate(b, vcd)
    ensures c_O2 <= 0.0 ==> r == TransferRate(b, powf, c_O2, ControllerFlow(b, c_O2))
    ensures UptakeRate(b, vcd) >= 0.0 ==> r <= TransferRate(b, powf, c_O2, ControllerFlow(b, c_O2))
  {
    var otr := TransferRate(b, powf, c_O2, ControllerFlow(b, c_O2));
    if c_O2 > 0.0 then -UptakeRate(b, vcd) + otr else otr
  }

  /** Without dissolved oxygen the uptake term is off, so the oxygen rate
      does not depend on the cell density. */
  lemma NoUptakeWithoutOxygen(b: Bioreactor, powf: Pow, vcd: real, vcd': real, c_O2: real)
    requires b.c_O2_SAT != 0.0 && b.air_flow + ControllerFlow(b, c_O2) != 0.0
    requires c_O2 <= 0.0
    ensures OxygenRate(b, powf, vcd, c_O2) == TransferRate(b, powf, c_O2, ControllerFlow(b, c_O2))
    ensures OxygenRate(b, powf, vcd, c_O2) == OxygenRate(b, powf, vcd', c_O2)
  {
  }

  /** Rate of product formation, proportional to the cell density. */
  function ProductRate(b: Bioreactor, vcd: real): real
  {
    b.k_product * vcd
  }

  /** The divisions of one derivative evaluation have nonzero divisors. */
  predicate Defined(b: Bioreactor, x: real, y: State)
  {
    && b.ks_gluc + y[2] != 0.0
    && b.ks_glut + y[3] != 0.0
    && b.k_c_O2 + y[4] != 0.0
    && b.c_O2_SAT != 0.0
    && b.air_flow + ControllerFlow(b, y[4]) != 0.0
    && (FeedStarted(b.feed_min, x) ==> y[0] != 0.0)
  }

  /** `system`: the read-only derivative hook; it writes nothing. */
  method System(b: Bioreactor, x: real, y: array<real>, dy: array<real>)
    requires y.Length == STATE_LEN && dy.Length == STATE_LEN
    ensures dy[..] == old(dy[..])
  {
  }

  /** `mut_system`: evaluates the derivative at time `x` into `dy` and
      overwrites the gas-flow channel `y[5]` with the controller output;
      `dy[5]` is left as it was. */
  method MutSystem(b: Bioreactor, powf: Pow, x: real, y: array<real>, dy: array<real>)
    requires y.Length == STATE_LEN && dy.Length == STATE_LEN && y != dy
    requires Defined(b, x, y[..])
    modifies y, dy
    ensures y[..] == old(y[..])[5 := ControllerFlow(b, old(y[4]))]
    ensures dy[0] == VolumeRate(FeedStarted(b.feed_min, x), b.fi_v)
    ensures dy[1] == CellRate(FeedStarted(b.feed_min, x), CellGrowth(b, powf, old(y[1]), old(y[2]), old(y[3]), old(y[4])),
                              b.fi_v, old(y[0]), old(y[1]))
    ensures dy[2] == SubstrateRate(FeedStarted(b.feed_min, x), b.k_gluc, b.ks_gluc, b.gluc_feed, b.fi_v,
                                   old(y[0]), old(y[1]), old(y[2]))
    ensures dy[3] == SubstrateRate(FeedStarted(b.feed_min, x), b.k_glut, b.ks_glut, b.glut_feed, b.fi_v,
                                   old(y[0]), old(y[1]), old(y[3]))
    ensures dy[4] == OxygenRate(b, powf, old(y[1]), old(y[4]))
    ensures dy[5] == old(dy[5])
    ensures dy[6] == ProductRate(b, old(y[1]))
  {
    ghost var y0 := y[..];
    var v, vcd, gluc, glut, c_O2 := y[0], y[1], y[2], y[3], y[4];

    dy[1] := CellGrowth(b, powf, vcd, gluc, glut, c_O2);
    dy[2] := Consumption(b.k_gluc, vcd, gluc, b.ks_gluc);
    dy[3] := Consumption(b.k_glut, vcd, glut, b.ks_glut);
    dy[6] := ProductRate(b, vcd);

    var error := DoError(b, c_O2);
    var o2Flow: real;
    if error > 0.0 {
      o2Flow := ProposedFlow(b, c_O2);
      if o2Flow > b.O2_flow_max {
        o2Flow := b.O2_flow_max;
      }
    } else {
      o2Flow := 0.0;
    }
    assert o2Flow == ControllerFlow(b, c_O2);
    y[5] := o2Flow;

    var otr := TransferRate(b, powf, c_O2, o2Flow);
    if c_O2 > 0.0 {
      dy[4] := -UptakeRate(b, vcd) + otr;
    } else {
      dy[4] := otr;
    }

    if x < b.feed_min * MINUTES_PER_DAY {
      dy[0] := 0.0;
    } else {
      ApplyFeed(b.fi_v, b.gluc_feed, b.glut_feed, v, vcd, gluc, glut, dy);
    }
    assert y[..] == y0[5 := o2Flow];
  }
}

/** The calibration cost: scores a candidate parameter vector by integrating
    the seven-channel process model and comparing the simulated cell
    density, glucose and glutamine against the observation store.

    The Runge-Kutta integrator is not part of this model: the cost receives
    it as a function `integrate` from (system, start time, start state, end
    time, step) to the sampled trajectory, or None when integration failed. */
module Calibration {
  import opened Util
  import opened ObservationTree
  import ProcessModel

  /** Starting cell density, glucose and glutamine of a run. */
  datatype Initial = Initial(vcd: real, gluc: real, glut: real)

  /** The default start: a positive cell density, glucose and glutamine,
      which a run starts from in the default 45 litres with the dissolved
      oxygen at 80, no gas flow and no product yet. */
  function DefaultInitial(): (ini: Initial)
    ensures ini.vcd > 0.0 && ini.gluc > 0.0 && ini.glut > 0.0
    ensures InitialState(ini) == [ProcessModel.VOLUME, 0.5, 7.0, 12.0, 80.0, 0.0, 0.0]
  {
    Initial(0.5, 7.0, 12.0)
  }

  /** Time samples `xOut` and states `yOut` as the integrator returns them;
      they are read pairwise, up to the shorter of the two. */
  datatype Trajectory = Trajectory(xOut: seq<real>, yOut: seq<ProcessModel.State>)

  type Integrator = (ProcessModel.Bioreactor, real, ProcessModel.State, real, real) -> Option<Trajectory>

  /** The measured quantities that are scored, with the name of their group
      in the store and the state channel they are compared with. */
  datatype Channel = VCD | Glucose | Glutamin
  {
    function Name(): string
    {
      match this
      case VCD => "VCD"
      case Glucose => "Glucose"
      case Glutamin => "Glutamin"
    }

    function Index(): (k: nat)
      ensures 1 <= k <= 3
    {
      match this
      case VCD => 1
      case Glucose => 2
      case Glutamin => 3
    }
  }

  /** Scoring order of the channels. */
  const CHANNELS: seq<Channel> := [VCD, Glucose, Glutamin]

  datatype CostError =
    | Error(msg: string)   // an error returned to the optimizer
    | Panic(msg: string)   // an `expect` that fails and aborts the program

  /** Simulated horizon: 14 days in minutes. */
  const MINUTES: real := 14.0 * 24.0 * 60.0
  const STEP: real := 1.0
  /** Cost of a candidate with a negative component. */
  const PENALTY: real := 100000.0
  /** Oxygen concentration the integration starts from. */
  const START_C_O2: real := 80.0

  /** The five fitted kinetic parameters. */
  datatype FitParams = FitParams(mu: real, ks_gluc: real, k_gluc: real, ks_glut: real, k_glut: real)

  /** Reads the fitted parameters from the end of the vector: the last
      component is `k_glut`, then `ks_glut`, `k_gluc`, `ks_gluc` and `mu`;
      earlier components are ignored. An empty vector is an error; one with
      one to four components hits the `expect` of the first missing value. */
  function ReadParams(p: seq<real>): Result<FitParams, CostError>
  {
    var n := |p|;
    if n == 0 then Failure(Error("no point data"))
    else if n == 1 then Failure(Panic("no ks_glut"))
    else if n == 2 then Failure(Panic("no k_gluc"))
    else if n == 3 then Failure(Panic("no ks_gluc"))
    else if n == 4 then Failure(Panic("no mu"))
    else Success(FitParams(p[n - 5], p[n - 4], p[n - 3], p[n - 2], p[n - 1]))
  }

  function InitialState(ini: Initial): ProcessModel.State
  {
    [ProcessModel.VOLUME, ini.vcd, ini.gluc, ini.glut, START_C_O2, 0.0, 0.0]
  }

  function SampleCount(tr: Trajectory): nat
  {
    if |tr.xOut| <= |tr.yOut| then |tr.xOut| else |tr.yOut|
  }

  /** The simulated `(t, y[k])` pairs of one state channel. */
  function Series(tr: Trajectory, k: nat): (s: seq<Point>)
    requires k < ProcessModel.STATE_LEN
    ensures |s| == SampleCount(tr)
    ensures forall i :: 0 <= i < |s| ==> s[i] == (tr.xOut[i], tr.yOut[i][k])
  {
    seq(SampleCount(tr), i requires 0 <= i < SampleCount(tr) => (tr.xOut[i], tr.yOut[i][k]))
  }

  /** A simulated sample is matched to an observation at time `nx` when
      their squared time difference is below one. */
  predicate Close(s: Point, nx: real)
  {
    Square(s.0 - nx) < 1.0
  }

  /** `k` is the first sample close to the time `nx`. */
  predicate FirstCloseAt(g: seq<Point>, nx: real, k: nat)
  {
    k < |g| && Close(g[k], nx) && forall i :: 0 <= i < k ==> !Close(g[i], nx)
  }

  /** Position of the first sample close to the time `nx`. */
  function FirstClose(g: seq<Point>, nx: real): (r: Option<nat>)
    ensures r.Some? ==> FirstCloseAt(g, nx, r.value)
    ensures r.None? ==> forall i :: 0 <= i < |g| ==> !Close(g[i], nx)
  {
    Position(g, s => Close(s, nx))
  }

  lemma FirstCloseUnique(g: seq<Point>, nx: real, k: nat, m: nat)
    requires FirstCloseAt(g, nx, k) && FirstCloseAt(g, nx, m)
    ensures k == m
  {
  }

  /** Contribution of one observation `(nx, ny)`: the squared distance to
      the first close sample, or nothing when no sample is close. */
  function PointCost(g: seq<Point>, nx: real, ny: real): (c: real)
    ensures c >= 0.0
    ensures (forall i :: 0 <= i < |g| ==> !Close(g[i], nx)) ==> c == 0.0
  {
    match FirstClose(g, nx)
    case None => 0.0
    case Some(m) => Square(nx - g[m].0) + Square(ny - g[m].1)
  }

  /** When sample `k` is the first one close to `nx`, the observation costs
      its squared distance to that sample. */
  lemma PointCostAtFirstClose(g: seq<Point>, nx: real, ny: real, k: nat)
    requires FirstCloseAt(g, nx, k)
    ensures PointCost(g, nx, ny) == Square(nx - g[k].0) + Square(ny - g[k].1)
  {
    var r := FirstClose(g, nx);
    assert r.Some?;
    FirstCloseUnique(g, nx, k, r.value);
  }

  /** Sum of the contributions of the observations `pts`, added in order. */
  function GroupCost(g: seq<Point>, pts: seq<Point>): (c: real)
    ensures c >= 0.0
    ensures pts == [] ==> c == 0.0
  {
    if |pts| == 0 then 0.0
    else GroupCost(g, pts[..|pts| - 1]) + PointCost(g, pts[|pts| - 1].0, pts[|pts| - 1].1)
  }

  lemma GroupCostStep(g: seq<Point>, pts: seq<Point>, j: nat)
    requires j < |pts|
    ensures GroupCost(g, pts[..j + 1]) == GroupCost(g, pts[..j]) + PointCost(g, pts[j].0, pts[j].1)
  {
    assert pts[..j + 1][..j] == pts[..j];
  }

  /** The observations of the scored groups, in the order of CHANNELS:
      None for a group that is missing or empty. */
  function Observations(tree: Tree): (obs: seq<Option<seq<Point>>>)
    reads tree, tree.nodes
    ensures |obs| == |CHANNELS|
    ensures forall i :: 0 <= i < |CHANNELS| ==> obs[i] == tree.Get(CHANNELS[i].Name())
  {
    [tree.Get(VCD.Name()), tree.Get(Glucose.Name()), tree.Get(Glutamin.Name())]
  }

  /** Contribution of one channel given its observations: nothing when its
      group is missing or empty. */
  function ChannelCost(tr: Trajectory, found: Option<seq<Point>>, ch: Channel): (c: real)
    ensures c >= 0.0
    ensures found.None? ==> c == 0.0
  {
    match found
    case None => 0.0
    case Some(pts) => GroupCost(Series(tr, ch.Index()), pts)
  }

  /** Sum of the contributions of the first `n` channels of CHANNELS. */
  function ScoreUpTo(tr: Trajectory, obs: seq<Option<seq<Point>>>, n: nat): (c: real)
    requires n <= |CHANNELS| == |obs|
    ensures c >= 0.0
  {
    if n == 0 then 0.0 else ScoreUpTo(tr, obs, n - 1) + ChannelCost(tr, obs[n - 1], CHANNELS[n - 1])
  }

  /** What `cost` returns for the parameter vector `p`. */
  function CostSpec(p: seq<real>, ini: Initial, tree: Tree, integrate: Integrator): Result<real, CostError>
    reads tree, tree.nodes
  {
    if exists i :: 0 <= i < |p| && p[i] < 0.0 then Success(PENALTY)
    else match ReadParams(p)
      case Failure(e) => Failure(e)
      case Success(f) =>
        var system := ProcessModel.Fit(f.mu, f.ks_gluc, f.k_gluc, f.ks_glut, f.k_glut);
        match integrate(system, 0.0, InitialState(ini), MINUTES, STEP)
        case None => Failure(Error("no point"))
        case Some(tr) => Success(ScoreUpTo(tr, Observations(tree), |CHANNELS|))
  }

  /** `Vec::pop`: the vector without its last element, and that element. */
  function Pop(v: seq<real>): (r: (seq<real>, Option<real>))
    ensures |v| == 0 ==> r == (v, None)
    ensures |v| > 0 ==> r.1.Some? && r.0 + [r.1.value] == v
  {
    if |v| == 0 then (v, None) else (v[..|v| - 1], Some(v[|v| - 1]))
  }

  class Regressor {
    var initial: Initial
    var nodes: Tree

    /** Default start values and an empty store with the three scored
        groups. */
    constructor Default()
      ensures initial == DefaultInitial()
      ensures |nodes.nodes| == 3 && nodes.Valid()
      ensures forall i :: 0 <= i < 3 ==> nodes.nodes[i].name == CHANNELS[i].Name() && nodes.nodes[i].children == []
    {
      initial := DefaultInitial();
      var vcd := new ParentNode(VCD.Name());
      var gluc := new ParentNode(Glucose.Name());
      var glut := new ParentNode(Glutamin.Name());
      nodes := new Tree([vcd, gluc, glut]);
    }

    /** `cost`: the penalty for a negative component, otherwise the sum of
        squared distances between each observation and its first close
        simulated sample. */
    method Cost(p: seq<real>, integrate: Integrator) returns (r: Result<real, CostError>)
      ensures r == CostSpec(p, initial, nodes, integrate)
    {
      for i := 0 to |p|
        invariant forall j :: 0 <= j < i ==> p[j] >= 0.0
      {
        if p[i] < 0.0 {
          return Success(PENALTY);
        }
      }

      var params := UnpackParams(p);
      if params.Failure? {
        return Failure(params.error);
      }
      var f := params.value;
      var system := ProcessModel.Fit(f.mu, f.ks_gluc, f.k_gluc, f.ks_glut, f.k_glut);
      var res := integrate(system, 0.0, InitialState(initial), MINUTES, STEP);
      if res.Some? {
        var dist := Score(res.value, Observations(nodes));
        return Success(dist);
      }
      return Failure(Error("no point"));
    }

    /** The parameter unpacking of `cost`: five pops from the end of a copy
        of the vector, the error when all five are missing, and the
        `expect` of each value in turn. */
    static method UnpackParams(p: seq<real>) returns (r: Result<FitParams, CostError>)
      ensures r == ReadParams(p)
    {
      var q := p;
      var k_glut, ks_glut, k_gluc, ks_gluc, mu;
      ghost var n := |p|;
      q, k_glut := Pop(q).0, Pop(q).1;
      assert (n >= 1 ==> q == p[..n - 1] && k_glut == Some(p[n - 1])) && (n < 1 ==> q == [] && k_glut.None?);
      q, ks_glut := Pop(q).0, Pop(q).1;
      assert (n >= 2 ==> q == p[..n - 2] && ks_glut == Some(p[n - 2])) && (n < 2 ==> q == [] && ks_glut.None?);
      q, k_gluc := Pop(q).0, Pop(q).1;
      assert (n >= 3 ==> q == p[..n - 3] && k_gluc == Some(p[n - 3])) && (n < 3 ==> q == [] && k_gluc.None?);
      q, ks_gluc := Pop(q).0, Pop(q).1;
      assert (n >= 4 ==> q == p[..n - 4] && ks_gluc == Some(p[n - 4])) && (n < 4 ==> q == [] && ks_gluc.None?);
      q, mu := Pop(q).0, Pop(q).1;
      assert (n >= 5 ==> mu == Some(p[n - 5])) && (n < 5 ==> mu.None?);

      if mu.None? && ks_gluc.None? && k_gluc.None? && ks_glut.None? && k_glut.None? {
        return Failure(Error("no point data"));
      }
      if k_glut.None? { return Failure(Panic("no k_glut")); }
      if ks_glut.None? { return Failure(Panic("no ks_glut")); }
      if k_gluc.None? { return Failure(Panic("no k_gluc")); }
      if ks_gluc.None? { return Failure(Panic("no ks_gluc")); }
      if mu.None? { return Failure(Panic("no mu")); }
      return Success(FitParams(mu.value, ks_gluc.value, k_gluc.value, ks_glut.value, k_glut.value));
    }
  }

  /** The scoring part of `cost` for a successful integration: the
      simulated series of the three scored channels, then, for each group
      that has observations, the distance accumulated over them. `obs`
      holds what the store returns for each group, in the order of
      CHANNELS. */
  method Score(tr: Trajectory, obs: seq<Option<seq<Point>>>) returns (dist: real)
    requires |obs| == |CHANNELS|
    ensures dist == ScoreUpTo(tr, obs, |CHANNELS|)
  {
    var gVcd, gGluc, gGlut := CollectSeries(tr);
    var groups := [(gVcd, VCD), (gGluc, Glucose), (gGlut, Glutamin)];
    dist := 0.0;
    for gi := 0 to |groups|
      invariant dist == ScoreUpTo(tr, obs, gi)
    {
      var gVec: seq<Point>, ch: Channel := groups[gi].0, groups[gi].1;
      assert ch == CHANNELS[gi] && gVec == Series(tr, ch.Index());
      var found := obs[gi];
      if found.Some? {
        var d := GroupDistance(gVec, found.value);
        dist := dist + d;
      }
    }
  }

  /** The first loop of `cost`: the `(t, y[k])` series of cell density,
      glucose and glutamine, one entry per trajectory sample. */
  method CollectSeries(tr: Trajectory) returns (gVcd: seq<Point>, gGluc: seq<Point>, gGlut: seq<Point>)
    ensures gVcd == Series(tr, 1) && gGluc == Series(tr, 2) && gGlut == Series(tr, 3)
  {
    gVcd, gGluc, gGlut := [], [], [];
    for k := 0 to SampleCount(tr)
      invariant gVcd == Series(tr, 1)[..k]
      invariant gGluc == Series(tr, 2)[..k]
      invariant gGlut == Series(tr, 3)[..k]
    {
      var t, y := tr.xOut[k], tr.yOut[k];
      gVcd := gVcd + [(t, y[1])];
      gGluc := gGluc + [(t, y[2])];
      gGlut := gGlut + [(t, y[3])];
    }
  }

  /** The innermost loop of `cost`: for each observation, the squared
      distance to the first close simulated sample, if there is one. */
  method GroupDistance(gVec: seq<Point>, pts: seq<Point>) returns (dist: real)
    ensures dist == GroupCost(gVec, pts)
  {
    dist := 0.0;
    for j := 0 to |pts|
      invariant dist == GroupCost(gVec, pts[..j])
    {
      var nx: real, ny: real := pts[j].0, pts[j].1;
      GroupCostStep(gVec, pts, j);
      var ps := FirstClose(gVec, nx);
      if ps.Some? {
        var point: Point := gVec[ps.value];
        assert PointCost(gVec, nx, ny) == Square(nx - point.0) + Square(ny - point.1);
        dist := dist + Square(nx - point.0);
        dist := dist + Square(ny - point.1);
      } else {
        assert PointCost(gVec, nx, ny) == 0.0;
      }
    }
    assert pts[..|pts|] == pts;
  }

  /** A candidate with a negative component costs the penalty, whatever
      the integrator would have produced. */
  lemma NegativeCandidateIsPenalized(p: seq<real>, i: nat, ini: Initial, tree: Tree, integrate: Integrator)
    requires i < |p| && p[i] < 0.0
    ensures CostSpec(p, ini, tree, integrate) == Success(PENALTY)
  {
  }

  /** Only the last five components are read: anything before them is
      ignored. */
  lemma LeadingComponentsIgnored(prefix: seq<real>, p: seq<real>)
    requires |p| == 5
    ensures ReadParams(prefix + p) == ReadParams(p)
  {
  }

  /** For a non-negative vector of five or more components the integrated
      system is `Fit(mu, ks_gluc, k_gluc, ks_glut, k_glut)` read from the
      end of the vector, started from the initial state, over 14 days in
      steps of one minute. */
  lemma CostIntegratesFitSystem(p: seq<real>, ini: Initial, tree: Tree, integrate: Integrator)
    requires |p| >= 5 && forall i :: 0 <= i < |p| ==> p[i] >= 0.0
    ensures var n := |p|;
            var run := integrate(ProcessModel.Fit(p[n - 5], p[n - 4], p[n - 3], p[n - 2], p[n - 1]), 0.0,
                                 [45.0, ini.vcd, ini.gluc, ini.glut, 80.0, 0.0, 0.0], 20160.0, 1.0);
            && (run.None? ==> CostSpec(p, ini, tree, integrate) == Failure(Error("no point")))
            && (run.Some? ==> CostSpec(p, ini, tree, integrate) == Success(ScoreUpTo(run.value, Observations(tree), 3)))
  {
  }

  /** Every successful cost is a sum of squares, hence non-negative. */
  lemma CostNonNegative(p: seq<real>, ini: Initial, tree: Tree, integrate: Integrator)
    requires CostSpec(p, ini, tree, integrate).Success?
    ensures CostSpec(p, ini, tree, integrate).value >= 0.0
  {
  }

  /** Channels whose group is missing or empty add nothing to the score. */
  lemma {:induction false} ScoreOfEmptyGroups(tr: Trajectory, obs: seq<Option<seq<Point>>>, n: nat)
    requires n <= |CHANNELS| == |obs|
    requires forall i :: 0 <= i < n ==> obs[i].None?
    ensures ScoreUpTo(tr, obs, n) == 0.0
  {
    if n > 0 {
      ScoreOfEmptyGroups(tr, obs, n - 1);
    }
  }

  /** With no observations in the store, a successful integration costs
      nothing. */
  lemma EmptyStoreCostsNothing(p: seq<real>, ini: Initial, tree: Tree, integrate: Integrator)
    requires |p| >= 5 && forall i :: 0 <= i < |p| ==> p[i] >= 0.0
    requires forall node :: node in tree.nodes ==> node.children == []
    requires CostSpec(p, ini, tree, integrate).Success?
    ensures CostSpec(p, ini, tree, integrate) == Success(0.0)
  {
    var obs := Observations(tree);
    forall i | 0 <= i < |CHANNELS|
      ensures obs[i].None?
    {
      var name := CHANNELS[i].Name();
      if tree.IndexOf(name).Some? {
        assert tree.nodes[tree.IndexOf(name).value] in tree.nodes;
      }
    }
    var f := ReadParams(p).value;
    var tr := integrate(ProcessModel.Fit(f.mu, f.ks_gluc, f.k_gluc, f.ks_glut, f.k_glut), 0.0, InitialState(ini), MINUTES, STEP).value;
    ScoreOfEmptyGroups(tr, obs, |CHANNELS|);
  }
}

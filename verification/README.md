# Fed-batch bioreactor core, modelled in Dafny

This project models the computational core of a fed-batch cell-culture
simulator and calibrator. It has four parts:

- **Observation store** (`tree.dfy`, module `ObservationTree`). A `Tree` owns
  named `ParentNode` groups. Each group is an ordered list of `Node(x, y)`
  points: `x` is a time and `y` the measured value. The cost reads `x`
  as minutes, the unit of the simulated trajectory; the CSV import stores
  the `days` column there unconverted.
  `Add` appends a point to a named group. `Remove` deletes the first point
  whose squared distance to the clicked position is below 0.8. `IndexOf`
  finds the first group with a given name. `Get` returns a group's points,
  or None when the group is unknown or empty. Both classes are edited in
  place. `Node::new` is the datatype constructor `Node`.
- **Seven-channel process model** (`model.dfy`, module `ProcessModel`). It
  holds the `Bioreactor` parameter record and its constructors `New`,
  `Default` and `Fit`. `MutSystem` is the derivative evaluation with the
  embedded oxygen controller: it writes `dy` entry by entry and overwrites
  the gas-flow channel `y[5]` in place. The controller law itself is the
  function `ControllerFlow`.
- **Five-channel model** (`bioreactor.dfy`, module `LegacyModel`). This is
  the model the desktop entry point integrates. `New` stores its arguments,
  and `System` fills the five derivative entries from a read-only state.
- **Calibration cost** (`regressor.dfy`, module `Calibration`). A `Regressor`
  scores a parameter vector in these steps:
  1. A negative component returns the penalty 100000.
  2. Five values are popped from the end of the vector. Missing values give
     the error of `cost` or the panic of its `expect` calls.
  3. `Fit(...)` is integrated from `[45, vcd, gluc, glut, 80, 0, 0]`.
  4. Each stored observation is matched to the first simulated sample whose
     squared time difference is below 1, and the squared distances are
     summed.

  The cell-density, glucose and glutamine groups are compared with state
  channels 1, 2 and 3.

`kinetics.dfy` (module `Kinetics`) holds the rate laws both models share:
Monod saturation, substrate consumption, the feed-start switch (days are
converted to minutes) and the dilution term. `util.dfy` holds `Option`,
`Result`, squaring, and `Position`, the first index that satisfies a
predicate (the iterator `position` the source uses throughout).

Floating-point numbers are modelled as `real`. A fractional power `powf` is
a caller-supplied function `powf: (real, real) -> real` about which nothing
is assumed. `powf(2.)` is squaring. The Runge-Kutta integrator is a
caller-supplied function `integrate`. It maps (system, start time, start
state, end time, step) to the sampled trajectory, or to None when
integration fails.

Notes on the cost and its defaults:
- Each matched observation adds the squared error `(nx - t)^2 + (ny - y)^2`.
- The match window is `(t - nx)^2 < 1`.
- The integration step is 1 minute.
- Only the three groups VCD, Glucose and Glutamin are scored.
- The default initial cell density is 0.5, glucose 7 and glutamine 12.

## Model

| member | source | states |
|---|---|---|
| `ObservationTree.Tree.constructor` | src/ui/tree.rs:17-20 | A store holds the given groups, each a distinct object, so the ownership invariant `Valid` that `Add` and `Remove` rely on holds from the start |
| `ObservationTree.Tree.IndexOf` | src/ui/tree.rs:50-57 | The result is the index of the first group with the given name, and None exactly when no group has that name |
| `ObservationTree.Tree.Remove` | src/ui/tree.rs:59-63 | The named group loses its first point near `(x, y)`; every other group is unchanged; an unknown name changes nothing; the list of groups (hence their number and names) is unchanged |
| `ObservationTree.Tree.Add` | src/ui/tree.rs:64-68 | `Node(x, y)` is appended at the end of the first group with the name; every other group is unchanged; an unknown name changes nothing; the list of groups is unchanged |
| `ObservationTree.Tree.Get` | src/ui/tree.rs:69-75 | None exactly when the name is unknown or its group is empty; otherwise all points of the first group with that name as `(x, y)` pairs; a read-only function, so the store is not modified |
| `ObservationTree.ParentNode.constructor` | src/ui/tree.rs:84-89 | A new group has the given name and no points |
| `ObservationTree.ParentNode.Add` | src/ui/tree.rs:115-117 | The point list becomes the old list followed by `Node(x, y)` |
| `ObservationTree.ParentNode.Remove` | src/ui/tree.rs:118-133 | The point list becomes `RemoveNear` of the old list |
| `ObservationTree.RemoveNear` | src/ui/tree.rs:120-132 | With no point within squared distance 0.8 the list is unchanged; otherwise exactly the first such point is removed and the others keep their order; the length drops by at most one |
| `ObservationTree.ParentNode.GetVec` | src/ui/tree.rs:134-142 | None exactly when the group is empty; otherwise as many pairs as points, pair `i` being `(x, y)` of point `i` |
| `ObservationTree.Points` | src/ui/tree.rs:137 | Same length as the point list, pair `i` is `(x, y)` of point `i` (insertion order) |
| `Kinetics.MonodBounds` | src/model.rs:114-119 | For a non-negative concentration the Monod factor is non-negative, below 1 when the half-saturation constant is positive, and 0 at zero concentration |
| `Kinetics.ConsumptionNonPositive` | src/bioreactor.rs:53-55 | The substrate consumption rate `-k*vcd*s/(ks+s)` is at most zero for non-negative `k`, `vcd`, `s` and a positive denominator |
| `Kinetics.VolumeRateIsFeedStep` | src/model.rs:166-169 | The volume rate is 0 before `feed_min*24*60` minutes and `fi_v` at every time from the feed start on, so for non-negative `fi_v` it never decreases over time |
| `Kinetics.ApplyFeed` | src/model.rs:168-173 | From feed start `dy[0] = fi_v`, `dy[1]` loses `vcd*fi_v/v`, `dy[2]` and `dy[3]` gain `(feed - conc)*fi_v/v` on top of their kinetic rates, and every entry from 4 on keeps its value |
| `Kinetics.SubstrateFallsBeforeFeed` | src/bioreactor.rs:53-60 | Before feed start a substrate's rate is at most zero for non-negative `k`, `vcd` and concentration |
| `Kinetics.FeedDrivesSubstrateToFeedLevel` | src/model.rs:171-172 | Once feeding, with no cells and positive volume and feed rate, a substrate rises below its feed concentration, falls above it and is steady at it |
| `ProcessModel.New` | src/model.rs:32-36 | `c_O2_SAT = henry*0.21`, `O2_feed_rate` is the argument times 1e-10, `k_c_O2` is the `k_do` argument, every other field is its argument |
| `ProcessModel.Default` | src/model.rs:37-63 | The default record has `c_O2_SAT = henry*0.21 > 0`, feeds `45*0.03` litres per day spread over minutes, starts feeding exactly at minute 2880 (day 2), and has a positive air flow with non-negative controller gain, `fi_O2_max` and flow cap |
| `ProcessModel.DefaultAsNew` | src/model.rs:37-63 | `Default()` stores 1.9444 without the 1e-10 factor `New` applies, so it equals `New` at the default values with 1.9444e10 as the uptake argument; its saturation concentration is `henry*0.21` |
| `ProcessModel.DefaultUptakeUnscaled` | src/model.rs:32-63 | The uptake rate of `Default()` (1.9444) is 1e10 times what `New` stores for the argument 1.9444 (1.9444e-10), which is the value the simulation panel passes to `New` by default |
| `ProcessModel.DefaultGasFlowPositive` | src/model.rs:126-145 | With the default record the controller flow lies in `[0, O2_flow_max]` and the total gas flow `air_flow + O2_flow` is positive at every oxygen concentration, so the kLa and mixing divisions are defined |
| `ProcessModel.Fit` | src/model.rs:64-74 | The five kinetic fields take the arguments; resetting them to their defaults gives back `Default()` exactly |
| `ProcessModel.ControllerFlow` | src/model.rs:126-136 | Flow 0 when the error `O2_min - (c_O2/c_O2_SAT)*100` is at most 0; otherwise the proportional flow `k_O2*error*fi_O2_max*10` when that does not exceed `O2_flow_max`, and `O2_flow_max` when it does (never above either) |
| `ProcessModel.ControllerFlowBounds` | src/model.rs:129-136 | The flow never exceeds a non-negative `O2_flow_max`, and is non-negative when the gain, `fi_O2_max` and the cap are non-negative |
| `ProcessModel.NoGrowthWithoutSubstrate` | src/model.rs:114-115 | Without glucose or without glutamine the specific growth rate and the growth term `c_mu*vcd^n_vcd` are both zero, whatever `powf` returns |
| `ProcessModel.TransferRate` | src/model.rs:140-152 | The transfer rate `kLa*(henry*x_O2 - c_O2)` drives the dissolved oxygen towards the gas saturation: with positive kLa it is positive exactly below saturation and negative exactly above it, and zero at saturation |
| `ProcessModel.GasSaturationBounds` | src/model.rs:143-149 | For positive air flow and non-negative oxygen flow, the gas saturation `henry*(air_flow*0.21 + O2_flow)/(air_flow + O2_flow)` lies between that of air and `henry` |
| `ProcessModel.UptakeRate` | src/model.rs:151 | Uptake `vcd*O2_feed_rate*60` is zero without cells and non-negative for non-negative density and rate |
| `ProcessModel.OxygenRate` | src/model.rs:140-159 | The oxygen rate is the transfer rate at the controller flow minus uptake when `c_O2 > 0`, and the transfer rate alone otherwise; for non-negative uptake it never exceeds the transfer rate |
| `ProcessModel.NoUptakeWithoutOxygen` | src/model.rs:151-159 | When `c_O2 <= 0` the oxygen rate is the transfer rate alone, so it does not depend on the cell density |
| `ProcessModel.System` | src/model.rs:77-79 | The read-only derivative hook leaves `dy` unchanged |
| `ProcessModel.MutSystem` | src/model.rs:81-174 | Only `y[5]` of the state changes, to the controller flow; `dy[5]` is never written; `dy[6] = k_product*vcd`; `dy[4]` is the transfer rate at the new flow minus uptake when `c_O2 > 0`, the transfer rate alone otherwise; before feed start `dy[0] = 0`, `dy[1]` is the growth term and `dy[2]`, `dy[3]` are the consumption rates; from feed start `dy[0] = fi_v`, `dy[1]` loses `vcd*fi_v/v` and `dy[2]`, `dy[3]` gain `(feed - conc)*fi_v/v`; all rates are of the state before the call |
| `LegacyModel.New` | src/bioreactor.rs:20-24 | Every argument is stored unchanged in the field of the same name, although `k_do` is passed sixth |
| `LegacyModel.OxygenRate` | src/bioreactor.rs:57 | For nonzero DO the oxygen balance equals `-vcd*k_do*1e-3*DO/(DO+k_do) + 0.9*k_do*1e-3`, since `(9*DO)/(10*DO)` is 0.9 |
| `LegacyModel.System` | src/bioreactor.rs:27-67 | The state is only read; all five `dy` entries are set; before feed start `dy[0] = 0`, `dy[1]` is the triple-Monod growth times `vcd^n_vcd`, `dy[2]`, `dy[3]` are the consumption rates; from feed start `dy[0] = fi_v`, `dy[1]` loses `vcd*fi_v/v` and `dy[2]`, `dy[3]` gain `(feed - conc)*fi_v/v`; `dy[4]` is the oxygen balance with its 0.9 term |
| `Calibration.Pop` | src/regressor.rs:39-44 | Popping an empty vector gives None and the same vector; otherwise the remaining vector followed by the popped value is the original |
| `Calibration.Regressor.UnpackParams` | src/regressor.rs:39-57 | Five pops agree with `ReadParams`, which reads `mu, ks_gluc, k_gluc, ks_glut, k_glut` from the last five components, gives the "no point data" error for an empty vector and the panic of the first failing `expect` for one to four components |
| `Calibration.LeadingComponentsIgnored` | src/regressor.rs:39-44 | Components before the last five do not affect the parameters read |
| `Calibration.DefaultInitial` | src/base.rs:38-44 | The default start values are positive, and the run starts from `[45, 0.5, 7, 12, 80, 0, 0]` |
| `Calibration.Regressor.Default` | src/regressor.rs:12-23 | Default initial values and three empty groups named VCD, Glucose and Glutamin |
| `Calibration.Regressor.Cost` | src/regressor.rs:30-110 | The result is `CostSpec`: the penalty 100000 for any negative component; else the parameter error or panic; else "no point" when integration fails; else the summed score of the trajectory |
| `Calibration.NegativeCandidateIsPenalized` | src/regressor.rs:31-36 | Any negative component gives exactly `Ok(100000)`, whatever the integrator would return |
| `Calibration.CostIntegratesFitSystem` | src/regressor.rs:59-73 | For a non-negative vector of five or more components, the integrated system is `Fit` of the last five components, started from `[45, vcd, gluc, glut, 80, 0, 0]` over 20160 minutes in steps of 1; a failed run gives `Err("no point")` and a successful run gives its score |
| `Calibration.CostNonNegative` | src/regressor.rs:78-105 | Every successful cost is non-negative |
| `Calibration.Score` | src/regressor.rs:74-100 | Given what the store returns for the three groups, the accumulated distance is `ScoreUpTo` over all channels: the series are built from the trajectory, and each group that has observations adds its group cost, in the order VCD, Glucose, Glutamin |
| `Calibration.Observations` | src/regressor.rs:86-87 | One entry per scored channel, in the order VCD, Glucose, Glutamin; entry `i` is what the store returns for that channel's group name |
| `Calibration.CollectSeries` | src/regressor.rs:80-84 | The three series are `(t, y[1])`, `(t, y[2])`, `(t, y[3])` for every paired trajectory sample, in order |
| `Calibration.Series` | src/regressor.rs:80-84 | One `(t, y[k])` pair per sample, up to the shorter of the time and state lists |
| `Calibration.ChannelCost` | src/regressor.rs:86-88 | A channel's contribution is non-negative and zero when its group is missing or empty |
| `Calibration.GroupDistance` | src/regressor.rs:89-98 | The inner loop's accumulated distance equals `GroupCost`, the in-order sum of the point contributions |
| `Calibration.GroupCostStep` | src/regressor.rs:89-98 | Extending the observations by one adds exactly that observation's contribution to the group cost |
| `Calibration.GroupCost` | src/regressor.rs:89-98 | A sum of point contributions: non-negative, and zero for no observations |
| `Calibration.FirstClose` | src/regressor.rs:91 | The index of the first sample with `(t - nx)^2 < 1`, or None when no sample is that close |
| `Calibration.PointCost` | src/regressor.rs:91-97 | Never negative, and zero for an observation that no sample matches |
| `Calibration.PointCostAtFirstClose` | src/regressor.rs:91-95 | When sample `k` is the first with `(t - nx)^2 < 1`, the observation adds `(nx - t_k)^2 + (ny - y_k)^2` |
| `Calibration.ScoreOfEmptyGroups` | src/regressor.rs:86-88 | When the store returns nothing for each of the first `n` channels, their summed score is zero |
| `Calibration.EmptyStoreCostsNothing` | src/regressor.rs:86-105 | With every group empty, a non-negative vector whose integration succeeds costs exactly 0 |

## Left out

- Drawing and editing through the user interface is not modelled. This covers the front end (`src/ui/app.rs`, `src/ui/regression.rs`, `src/ui/simulations.rs`, `src/ui/mod.rs`, `src/main.rs`) and the `ui`, `children_ui`, `points` and `plot_points` methods of the store. They only render and plot.
- CSV import and file dialogs are I/O and are not modelled.
- The Runge-Kutta integrator is an external crate. It is the `integrate` parameter, and the model makes no claim about its step count or accuracy.
- The Nelder-Mead optimizer that calls the cost is an external crate and is not modelled.
- The minimize and undo flow of the front end is not modelled. It builds a regressor with fields and types that `src/regressor.rs` and `src/model.rs` do not define.
- Fractional `powf` is the uninterpreted parameter `powf`.
- f64 rounding, infinities and NaN are not modelled. In particular, the cost's fallback of 10000 for a NaN distance is left out, because reals are never NaN.
- `println!` debug output is left out.
- `Graphs` in `src/base.rs` is a plain data holder with no behaviour and is not modelled. `Initial` is the datatype `Calibration.Initial` with `DefaultInitial`.
- ProcessModel.MutSystem: requires every divisor to be nonzero: `ks_gluc + gluc`, `ks_glut + glut`, `k_c_O2 + c_O2`, `c_O2_SAT`, the total gas flow, and the volume once feeding has started. With f64, such a division yields an infinity or NaN, which reals cannot represent.
- LegacyModel.System: requires nonzero divisors, including `DO != 0`. With f64, `DO = 0` makes `(9*DO)/(10*DO)` NaN, which reals cannot represent.

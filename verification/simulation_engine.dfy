/** The numerical engine of simulation_engine.py: steady-state solves and parameter sweeps
    that save, override and restore attributes of the shared motor record, the post-processing
    of a transient integration, the torque-angle stability analysis and the engine's own
    scenarios. The root finder (fsolve) and the integrator (solve_ivp) are given as opaque
    functions. */
module Engine {
  import opened Wrappers
  import opened Transcendental
  import opened Units
  import Arrays
  import opened MotorModel

  /** fsolve on T_e(delta) - T_load from the guess 0.1 rad: the angle it returns for a record.
      It is only called when that equation cannot raise, and then it returns some angle,
      converged or not. */
  type RootFinder = Parameters -> real

  /** solve_ivp with dense output on the dynamic model of a record, from (t0, t1, omega_m0,
      delta0): the dense solution t |-> (omega_m, delta), or None when it reports failure. */
  type IvpSolver = (Parameters, real, real, real, real) -> Option<real -> (real, real)>

  /** str() of a float, as an f-string prints it. */
  type FloatText = real -> string

  /** The dynamic model also divides by the inertia. */
  predicate Dynamic(m: Parameters) {
    Nondegenerate(m) && m.J != 0.0
  }

  /** The number of samples simulate_transient_response evaluates the dense solution at. */
  const SampleCount: nat := 1000

  // ---------------------------------------------------------------- stability analysis

  /** The dictionary stability_analysis returns. */
  datatype Stability = Stability(
    delta: seq<real>, te: seq<real>, dTe: seq<real>, stable: seq<bool>,
    tMax: real, deltaMax: real)

  /** stability_analysis: the torque-angle curve on n angles evenly spaced over [lo, hi], its
      np.gradient, the points where it falls, and its first maximum. The torque list raises
      for an unknown connection before np.gradient raises for fewer than two points. */
  function StabilityAnalysis(tr: Transcendentals, m: Parameters, lo: real, hi: real, n: nat): (r: Result<Stability>)
    requires tr.Valid() && Nondegenerate(m) && lo != hi
    ensures r.Ok? <==> n >= 2 && ValidConnection(m.connection)
    ensures r.Err? ==> r.error == if n >= 1 && !ValidConnection(m.connection) then InvalidConnection else TooFewPoints
    ensures r.Ok? ==>
      var s := r.value;
      && s.delta == Arrays.Linspace(lo, hi, n)
      && |s.te| == n && |s.dTe| == n && |s.stable| == n
      && (forall i :: 0 <= i < n ==> s.te[i] == TorqueFromAngle(tr, m, s.delta[i]).value)
      && Arrays.Separated(s.delta) && s.dTe == Arrays.Gradient(s.te, s.delta)
      && (forall i :: 0 <= i < n ==> (s.stable[i] <==> s.dTe[i] < 0.0))
      && (forall i :: 0 <= i < n ==> s.te[i] <= s.tMax)
      && (exists k :: 0 <= k < n && s.tMax == s.te[k] && s.deltaMax == s.delta[k]
            && forall j :: 0 <= j < k ==> s.te[j] < s.tMax)
  {
    var deltas := Arrays.Linspace(lo, hi, n);
    var te :- Torques(tr, m, deltas);
    if n < 2 then Err(TooFewPoints)
    else
      GridSeparated(lo, hi, n);
      var g := Arrays.Gradient(te, deltas);
      var k := Arrays.ArgMax(te);
      Ok(Stability(deltas, te, g, seq(n, i requires 0 <= i < n => g[i] < 0.0), te[k], deltas[k]))
  }

  /** A grid over a non-empty interval has a non-zero step, so np.gradient divides by no zero. */
  lemma GridSeparated(lo: real, hi: real, n: nat)
    requires lo != hi && n >= 2
    ensures Arrays.Step(lo, hi, n) != 0.0
    ensures Arrays.UniformlySpaced(Arrays.Linspace(lo, hi, n), Arrays.Step(lo, hi, n))
    ensures Arrays.Separated(Arrays.Linspace(lo, hi, n))
  {
    var h := Arrays.Step(lo, hi, n);
    var d := (n - 1) as real;
    assert h * d == hi - lo;
    Arrays.LinspaceUniform(lo, hi, n);
    Arrays.UniformSeparated(Arrays.Linspace(lo, hi, n), h);
  }

  /** On the uniform grid the reported derivative is the centred difference inside and the
      one-sided difference at either end, and a point is flagged stable exactly when that
      difference is negative. */
  lemma StabilityGradient(tr: Transcendentals, m: Parameters, lo: real, hi: real, n: nat, i: nat)
    requires tr.Valid() && Nondegenerate(m) && lo != hi
    requires n >= 2 && ValidConnection(m.connection) && i < n
    ensures var s := StabilityAnalysis(tr, m, lo, hi, n).value;
      && s.dTe[i] == Arrays.UniformDifference(s.te, Arrays.Step(lo, hi, n), i)
      && (s.stable[i] <==> Arrays.UniformDifference(s.te, Arrays.Step(lo, hi, n), i) < 0.0)
  {
    var s := StabilityAnalysis(tr, m, lo, hi, n).value;
    GridSeparated(lo, hi, n);
    Arrays.UniformGradient(s.te, s.delta, Arrays.Step(lo, hi, n), i);
  }

  /** The peak torque found on the grid is at most the magnitude of T_max. */
  lemma StabilityPeakBounded(tr: Transcendentals, m: Parameters, lo: real, hi: real, n: nat)
    requires tr.Valid() && Nondegenerate(m) && lo != hi
    requires n >= 2 && ValidConnection(m.connection)
    ensures StabilityAnalysis(tr, m, lo, hi, n).value.tMax <= Arrays.Abs(TorqueMax(tr, m).value)
  {
    var s := StabilityAnalysis(tr, m, lo, hi, n).value;
    var k :| 0 <= k < n && s.tMax == s.te[k] && s.deltaMax == s.delta[k];
    TorqueAngleShape(tr, m, s.delta[k]);
  }

  // ---------------------------------------------------------------- transient post-processing

  /** The dictionary simulate_transient_response returns after a successful integration. */
  datatype Transient = Transient(
    time: seq<real>, omegaM: seq<real>, delta: seq<real>, deltaDeg: seq<real>,
    tLoad: seq<real>, te: seq<real>, p: seq<real>, q: seq<real>, pf: seq<real>)
  {
    /** Every series holds one value per sample. */
    predicate Sized() {
      && |time| == |omegaM| == |delta| == |deltaDeg| == SampleCount
      && |tLoad| == |te| == |p| == |q| == |pf| == SampleCount
    }
  }

  /** The dense solution sampled on 1000 points over [t0, t1], with the torque of each sampled
      angle, P = T_e omega_s, and the placeholders Q = 0 and pf = 1. */
  function Sampled(tr: Transcendentals, m: Parameters, sol: real -> (real, real), t0: real, t1: real): (r: Transient)
    requires tr.Valid() && Nondegenerate(m) && ValidConnection(m.connection)
    ensures r.Sized()
  {
    var time := Arrays.Linspace(t0, t1, SampleCount);
    var delta := Component(sol, time, false);
    var te := Torques(tr, m, delta).value;
    Transient(time, Component(sol, time, true), delta, InDegrees(tr, delta), Constant(m.TLoad),
              te, Scaled(te, SynchronousSpeedRadps(tr, m.f, m.p)), Constant(0.0), Constant(1.0))
  }

  /** The speeds (first) or the angles of the dense solution at the given times. */
  function Component(sol: real -> (real, real), time: seq<real>, speed: bool): (r: seq<real>)
    ensures |r| == |time|
    ensures forall k :: 0 <= k < |time| ==> r[k] == if speed then sol(time[k]).0 else sol(time[k]).1
  {
    seq(|time|, k requires 0 <= k < |time| => if speed then sol(time[k]).0 else sol(time[k]).1)
  }

  function InDegrees(tr: Transcendentals, xs: seq<real>): (r: seq<real>)
    requires tr.Valid()
    ensures |r| == |xs| && forall k :: 0 <= k < |xs| ==> r[k] == Degrees(tr, xs[k])
  {
    seq(|xs|, k requires 0 <= k < |xs| => Degrees(tr, xs[k]))
  }

  function Constant(c: real): (r: seq<real>)
    ensures |r| == SampleCount && forall k :: 0 <= k < SampleCount ==> r[k] == c
  {
    seq(SampleCount, k requires 0 <= k < SampleCount => c)
  }

  function Scaled(xs: seq<real>, c: real): (r: seq<real>)
    ensures |r| == |xs| && forall k :: 0 <= k < |xs| ==> r[k] == xs[k] * c
  {
    seq(|xs|, k requires 0 <= k < |xs| => xs[k] * c)
  }

  /** simulate_transient_response: an unknown connection raises on the integrator's first
      derivative evaluation; a failed integration gives the empty dictionary (None). */
  function TransientResponse(tr: Transcendentals, solve: IvpSolver, m: Parameters,
                             t0: real, t1: real, omega0: real, delta0: real): (r: Result<Option<Transient>>)
    requires tr.Valid() && Dynamic(m)
    ensures r.Ok? <==> ValidConnection(m.connection)
    ensures r.Err? ==> r.error == InvalidConnection
    ensures r.Ok? ==> (r.value.None? <==> solve(m, t0, t1, omega0, delta0).None?)
    ensures r.Ok? && r.value.Some? ==> r.value.value.Sized()
  {
    if !ValidConnection(m.connection) then Err(InvalidConnection)
    else
      match solve(m, t0, t1, omega0, delta0)
      case None => Ok(None)
      case Some(sol) => Ok(Some(Sampled(tr, m, sol, t0, t1)))
  }

  /** The samples of a successful transient: a uniform time grid from t0 to t1, a constant
      load torque, each torque on the torque-angle curve (hence bounded by T_max), power equal
      to torque times synchronous speed, Q = 0, pf = 1, and angles in degrees that convert
      back to the sampled radians. */
  lemma TransientSamples(tr: Transcendentals, m: Parameters, sol: real -> (real, real), t0: real, t1: real)
    requires tr.Valid() && Nondegenerate(m) && ValidConnection(m.connection)
    ensures var r := Sampled(tr, m, sol, t0, t1);
      && r.time[0] == t0 && r.time[SampleCount - 1] == t1
      && Arrays.UniformlySpaced(r.time, Arrays.Step(t0, t1, SampleCount))
      && forall k :: 0 <= k < SampleCount ==> SampleHolds(tr, m, r, k)
  {
    Arrays.LinspaceUniform(t0, t1, SampleCount);
    forall k | 0 <= k < SampleCount
      ensures SampleHolds(tr, m, Sampled(tr, m, sol, t0, t1), k)
    {
      TransientSample(tr, m, sol, t0, t1, k);
    }
  }

  /** The samples of a successful transient response, stated on the response itself. */
  lemma ResponseSamples(tr: Transcendentals, solve: IvpSolver, m: Parameters, t0: real, t1: real, omega0: real, delta0: real)
    requires tr.Valid() && Dynamic(m)
    requires TransientResponse(tr, solve, m, t0, t1, omega0, delta0).Ok?
    requires TransientResponse(tr, solve, m, t0, t1, omega0, delta0).value.Some?
    ensures ValidConnection(m.connection)
    ensures var x := TransientResponse(tr, solve, m, t0, t1, omega0, delta0).value.value;
      && x.time[0] == t0 && x.time[SampleCount - 1] == t1
      && forall k :: 0 <= k < SampleCount ==> SampleHolds(tr, m, x, k)
  {
    TransientSamples(tr, m, solve(m, t0, t1, omega0, delta0).value, t0, t1);
  }

  /** What each sample of a successful transient satisfies. */
  ghost predicate SampleHolds(tr: Transcendentals, m: Parameters, r: Transient, k: nat)
    requires tr.Valid() && Nondegenerate(m) && ValidConnection(m.connection)
    requires r.Sized() && k < SampleCount
  {
    && r.tLoad[k] == m.TLoad
    && r.te[k] == TorqueFromAngle(tr, m, r.delta[k]).value
    && Arrays.Abs(r.te[k]) <= Arrays.Abs(TorqueMax(tr, m).value)
    && TorqueBalance(r.te[k], SynchronousSpeedRadps(tr, m.f, m.p), r.p[k])
    && r.q[k] == 0.0 && r.pf[k] == 1.0
    && Radians(tr, r.deltaDeg[k]) == r.delta[k]
  }

  lemma TransientSample(tr: Transcendentals, m: Parameters, sol: real -> (real, real), t0: real, t1: real, k: nat)
    requires tr.Valid() && Nondegenerate(m) && ValidConnection(m.connection) && k < SampleCount
    ensures SampleHolds(tr, m, Sampled(tr, m, sol, t0, t1), k)
  {
    var r := Sampled(tr, m, sol, t0, t1);
    TorqueSample(tr, m, r.delta, k);
    AngleRoundTrip(tr, r.delta[k]);
  }

  lemma TorqueSample(tr: Transcendentals, m: Parameters, delta: seq<real>, k: nat)
    requires tr.Valid() && Nondegenerate(m) && ValidConnection(m.connection) && k < |delta|
    ensures var te := Torques(tr, m, delta).value;
      && te[k] == TorqueFromAngle(tr, m, delta[k]).value
      && Arrays.Abs(te[k]) <= Arrays.Abs(TorqueMax(tr, m).value)
      && TorqueBalance(te[k], SynchronousSpeedRadps(tr, m.f, m.p), Scaled(te, SynchronousSpeedRadps(tr, m.f, m.p))[k])
  {
    TorqueAngleShape(tr, m, delta[k]);
    ScaledBalance(Torques(tr, m, delta).value, SynchronousSpeedRadps(tr, m.f, m.p), k);
  }

  /** Appending the next scaled entry extends the prefix of Scaled. */
  lemma ScaledStep(xs: seq<real>, c: real, i: nat, x: real, d: real, prefix: seq<real>)
    requires i < |xs| && x == xs[i] && d == c && prefix == Scaled(xs, c)[..i]
    ensures prefix + [x * d] == Scaled(xs, c)[..i + 1]
  {
    var r := Scaled(xs, c);
    assert r[i] == x * d;
    assert r[..i + 1] == r[..i] + [r[i]];
  }

  lemma ScaledBalance(xs: seq<real>, c: real, k: nat)
    requires c != 0.0 && k < |xs|
    ensures TorqueBalance(xs[k], c, Scaled(xs, c)[k])
  {
  }

  /** The record after the post-processing loop: it leaves the last sample's angle, speed and
      time in the record. */
  function AfterTransient(s: Snapshot, r: Option<Transient>): Snapshot
    requires r.Some? ==> r.value.Sized()
  {
    match r
    case None => s
    case Some(x) => s.(delta := x.delta[SampleCount - 1], omegaM := x.omegaM[SampleCount - 1], time := x.time[SampleCount - 1])
  }

  // ---------------------------------------------------------------- steady-state solve and sweep

  /** The record after solve_steady_state: everything it overrode is restored, and the angle
      is the root found, unless 'delta' itself was overridden and so restored too. */
  function SolvedState(s: Snapshot, fixed: seq<(string, Value)>, root: real): (r: Snapshot)
    ensures forall b :: b != RotorAngle ==> r.Get(b) == s.Get(b)
    ensures Find(fixed, "delta").None? ==> r.delta == root
    ensures Find(fixed, "delta").Some? ==> r.delta == s.delta
  {
    if Find(fixed, "delta").Some? then s else s.(delta := root)
  }

  /** Overriding, setting the angle, then restoring the saved values gives SolvedState. */
  lemma RestoreAfterSolve(s: Snapshot, fixed: seq<(string, Value)>, root: real)
    requires DistinctNames(fixed) && WellTyped(Resolve(fixed))
    ensures var u := Resolve(fixed);
      Override(Override(s, u).(delta := root), Originals(s, u)) == SolvedState(s, fixed, root)
  {
    var u := Resolve(fixed);
    var final := Override(Override(s, u).(delta := root), Originals(s, u));
    forall a ensures final.Get(a) == SolvedState(s, fixed, root).Get(a) {
      RestoredAttribute(s, fixed, root, a);
    }
    Extensional(final, SolvedState(s, fixed, root));
  }

  lemma RestoredAttribute(s: Snapshot, fixed: seq<(string, Value)>, root: real, a: Attr)
    requires DistinctNames(fixed) && WellTyped(Resolve(fixed))
    ensures var u := Resolve(fixed);
      Override(Override(s, u).(delta := root), Originals(s, u)).Get(a) == SolvedState(s, fixed, root).Get(a)
  {
    var u := Resolve(fixed);
    var mid := Override(s, u).(delta := root);
    RestoreOriginals(s, u, mid, a);
    ResolveDistinct(fixed);
    ResolveLookup(fixed, RotorAngle);
    AngleGet(Override(s, u), root, a);
    AngleGet(s, root, a);
    if a in Touched(u) {
      assert a == RotorAngle ==> Find(fixed, "delta").Some?;
    } else {
      LookupUntouched(u, a);
      OverrideGet(s, u, a);
    }
  }

  /** Setting the angle changes what the angle reads and nothing else. */
  lemma AngleGet(s: Snapshot, root: real, a: Attr)
    ensures s.(delta := root).Get(a) == if a == RotorAngle then Num(root) else s.Get(a)
  {
  }

  /** The record of a sweep step: the swept attribute set to x, then the fixed keyword
      arguments applied. */
  function SweepRecord(s: Snapshot, a: Attr, x: real, fixed: seq<(string, Value)>): Snapshot
    requires a != Connection && WellTyped(Resolve(fixed))
  {
    Override(s.With(a, Num(x)), Resolve(fixed))
  }

  /** Every record the sweep analyses is one the model covers. */
  predicate SweepDefined(s: Snapshot, a: Attr, values: seq<real>, fixed: seq<(string, Value)>)
    requires a != Connection && WellTyped(Resolve(fixed))
  {
    forall k :: 0 <= k < |values| ==> Nondegenerate(SweepRecord(s, a, values[k], fixed).params)
  }

  /** One result of parameter_sweep: the steady state plus the 'parameter_<name>' entry. */
  datatype SweepPoint = SweepPoint(key: string, value: real, analysis: SteadyState)

  /** The sweep point for value x is the steady state of the record with x swept in, under
      the key 'parameter_<name>'. */
  ghost predicate AnalysedAt(tr: Transcendentals, s: Snapshot, a: Attr, name: string, x: real,
                             fixed: seq<(string, Value)>, point: SweepPoint)
    requires tr.Valid() && a != Connection && WellTyped(Resolve(fixed))
  {
    var m := SweepRecord(s, a, x, fixed).params;
    && point.key == "parameter_" + name && point.value == x
    && Nondegenerate(m) && SteadyStateAnalysis(tr, m) == Ok(point.analysis)
  }

  /** The results of parameter_sweep over the values, in order; the first analysis raises for
      an unknown connection. */
  function Sweep(tr: Transcendentals, s: Snapshot, a: Attr, name: string, values: seq<real>,
                 fixed: seq<(string, Value)>): (r: Result<seq<SweepPoint>>)
    requires tr.Valid() && a != Connection && WellTyped(Resolve(fixed)) && SweepDefined(s, a, values, fixed)
    ensures r.Ok? <==> |values| == 0 || ValidConnection(SweepRecord(s, a, values[0], fixed).params.connection)
    ensures r.Err? ==> r.error == InvalidConnection
    ensures r.Ok? ==>
      && |r.value| == |values|
      && forall k :: 0 <= k < |values| ==> AnalysedAt(tr, s, a, name, values[k], fixed, r.value[k])
  {
    SweepPrefix(tr, s, a, name, values, |values|, fixed)
  }

  /** The sweep over the first i values. */
  function SweepPrefix(tr: Transcendentals, s: Snapshot, a: Attr, name: string, values: seq<real>, i: nat,
                       fixed: seq<(string, Value)>): (r: Result<seq<SweepPoint>>)
    requires tr.Valid() && a != Connection && WellTyped(Resolve(fixed)) && SweepDefined(s, a, values, fixed)
    requires i <= |values|
    ensures r.Ok? <==> i == 0 || ValidConnection(SweepRecord(s, a, values[0], fixed).params.connection)
    ensures r.Err? ==> r.error == InvalidConnection
    ensures r.Ok? ==>
      && |r.value| == i
      && forall k :: 0 <= k < i ==> AnalysedAt(tr, s, a, name, values[k], fixed, r.value[k])
  {
    if i == 0 then Ok([])
    else
      var init :- SweepPrefix(tr, s, a, name, values, i - 1, fixed);
      SweepConnection(s, a, values[0], values[i - 1], fixed);
      var analysis :- SteadyStateAnalysis(tr, SweepRecord(s, a, values[i - 1], fixed).params);
      var point := SweepPoint("parameter_" + name, values[i - 1], analysis);
      AnalysedAppend(tr, s, a, name, values, i, fixed, init, point);
      Ok(init + [point])
  }

  /** Appending the point of the next value keeps every point analysed at its own value. */
  lemma AnalysedAppend(tr: Transcendentals, s: Snapshot, a: Attr, name: string, values: seq<real>, i: nat,
                       fixed: seq<(string, Value)>, init: seq<SweepPoint>, point: SweepPoint)
    requires tr.Valid() && a != Connection && WellTyped(Resolve(fixed))
    requires 0 < i <= |values| && |init| == i - 1
    requires forall k :: 0 <= k < i - 1 ==> AnalysedAt(tr, s, a, name, values[k], fixed, init[k])
    requires AnalysedAt(tr, s, a, name, values[i - 1], fixed, point)
    ensures forall k :: 0 <= k < i ==> AnalysedAt(tr, s, a, name, values[k], fixed, (init + [point])[k])
  {
    forall k | 0 <= k < i
      ensures AnalysedAt(tr, s, a, name, values[k], fixed, (init + [point])[k])
    {
      if k < i - 1 {
        assert (init + [point])[k] == init[k];
      }
    }
  }

  /** One step of the sweep loop: a failed analysis can only be the first, and makes the whole
      sweep fail; a successful one extends the sweep of the prefix. */
  lemma SweepNext(tr: Transcendentals, s: Snapshot, a: Attr, name: string, values: seq<real>, i: nat,
                  fixed: seq<(string, Value)>, results: seq<SweepPoint>, point: Result<SweepPoint>)
    requires tr.Valid() && a != Connection && WellTyped(Resolve(fixed)) && SweepDefined(s, a, values, fixed)
    requires i < |values| && SweepPrefix(tr, s, a, name, values, i, fixed) == Ok(results)
    requires point.Ok? <==> ValidConnection(SweepRecord(s, a, values[i], fixed).params.connection)
    requires point.Err? ==> point.error == InvalidConnection
    requires point.Ok? ==> AnalysedAt(tr, s, a, name, values[i], fixed, point.value)
    ensures point.Err? ==> i == 0 && Sweep(tr, s, a, name, values, fixed) == Err(InvalidConnection)
    ensures point.Ok? ==> SweepPrefix(tr, s, a, name, values, i + 1, fixed) == Ok(results + [point.value])
  {
    SweepConnection(s, a, values[0], values[i], fixed);
  }

  /** The swept value never changes the connection. */
  lemma SweepConnection(s: Snapshot, a: Attr, x: real, y: real, fixed: seq<(string, Value)>)
    requires a != Connection && WellTyped(Resolve(fixed))
    ensures SweepRecord(s, a, x, fixed).params.connection == SweepRecord(s, a, y, fixed).params.connection
  {
    OverrideGet(s.With(a, Num(x)), Resolve(fixed), Connection);
    OverrideGet(s.With(a, Num(y)), Resolve(fixed), Connection);
    WithGet(s, a, Num(x), Connection);
    WithGet(s, a, Num(y), Connection);
  }

  /** A sweep step starting from a record that agrees with the original one wherever the
      fixed keyword arguments and the swept value do not overwrite it, except perhaps in the
      angle, gives the same record once the solve has set the angle. */
  lemma SweepStepRecord(s: Snapshot, prev: Snapshot, a: Attr, x: real, fixed: seq<(string, Value)>, root: real)
    requires a != Connection && WellTyped(Resolve(fixed))
    requires forall b :: b != a && b != RotorAngle && Lookup(Resolve(fixed), b).None? ==> prev.Get(b) == s.Get(b)
    ensures SweepRecord(prev, a, x, fixed).(delta := root) == SweepRecord(s, a, x, fixed).(delta := root)
  {
    var u := Resolve(fixed);
    forall b ensures SweepRecord(prev, a, x, fixed).(delta := root).Get(b)
                     == SweepRecord(s, a, x, fixed).(delta := root).Get(b) {
      OverrideGet(prev.With(a, Num(x)), u, b);
      OverrideGet(s.With(a, Num(x)), u, b);
      WithGet(prev, a, Num(x), b);
      WithGet(s, a, Num(x), b);
    }
    Extensional(SweepRecord(prev, a, x, fixed).(delta := root), SweepRecord(s, a, x, fixed).(delta := root));
  }

  /** Every sweep record reads, outside the swept attribute and the angle, the fixed value
      when one is passed and the original value otherwise. */
  lemma SweepRecordReads(s: Snapshot, a: Attr, x: real, fixed: seq<(string, Value)>, root: real, b: Attr)
    requires a != Connection && WellTyped(Resolve(fixed)) && b != a && b != RotorAngle
    ensures SweepRecord(s, a, x, fixed).(delta := root).Get(b)
            == if Lookup(Resolve(fixed), b).Some? then Lookup(Resolve(fixed), b).value else s.Get(b)
  {
    OverrideGet(s.With(a, Num(x)), Resolve(fixed), b);
    WithGet(s, a, Num(x), b);
  }

  /** The record parameter_sweep leaves: after a successful sweep over at least one value, the
      last step's record with its root as the angle and the swept attribute restored; after a
      failure, the first step's record as it was when the analysis raised. */
  function SweepExit(s: Snapshot, fsolve: RootFinder, a: Attr, values: seq<real>,
                     fixed: seq<(string, Value)>, ok: bool): (r: Snapshot)
    requires a != Connection && WellTyped(Resolve(fixed))
    ensures values == [] ==> r == s
    ensures values != [] && ok ==> r.Get(a) == s.Get(a)
    ensures values != [] && ok ==> forall b :: b != a && b != RotorAngle ==>
      r.Get(b) == SweepRecord(s, a, values[|values| - 1], fixed).Get(b)
    ensures values != [] && !ok ==> r == SweepRecord(s, a, values[0], fixed)
  {
    if values == [] then s
    else if !ok then SweepRecord(s, a, values[0], fixed)
    else
      var last := SweepRecord(s, a, values[|values| - 1], fixed);
      last.(delta := fsolve(last.params)).With(a, s.Get(a))
  }

  /** After a successful sweep the swept attribute has its original value, the fixed keyword
      arguments stay applied, and every other attribute except the angle is unchanged. */
  lemma SweepRestores(s: Snapshot, fsolve: RootFinder, a: Attr, values: seq<real>, fixed: seq<(string, Value)>, b: Attr)
    requires a != Connection && WellTyped(Resolve(fixed)) && |values| > 0 && b != RotorAngle
    ensures var e := SweepExit(s, fsolve, a, values, fixed, true);
      && e.Get(a) == s.Get(a)
      && (b != a ==> e.Get(b) == if Lookup(Resolve(fixed), b).Some? then Lookup(Resolve(fixed), b).value else s.Get(b))
  {
    var last := SweepRecord(s, a, values[|values| - 1], fixed);
    var solved := last.(delta := fsolve(last.params));
    WithGet(solved, a, s.Get(a), a);
    WithGet(solved, a, s.Get(a), b);
    if b != a {
      SweepRecordReads(s, a, values[|values| - 1], fixed, fsolve(last.params), b);
    }
  }

  // ---------------------------------------------------------------- engine scenarios

  /** The extra entry each engine scenario adds to the transient dictionary. */
  datatype Extra =
    | NoExtra
    | LoadProfile(tLoadProfile: seq<real>)
    | ExcitationProfile(ifProfile: seq<real>)
    | OverloadFactor(factor: real)

  /** A scenario's dictionary: the transient samples (None for the empty dictionary of a failed
      integration), the 'scenario' and 'description' entries and the scenario's own entry. */
  datatype EngineRun = EngineRun(transient: Option<Transient>, scenario: string, description: string, extra: Extra)

  /** An engine scenario with its keyword arguments. */
  datatype EngineScenario =
    | Startup(tFinal: real)
    | LoadIncrease(tFinal: real, loadSteps: int)
    | ExcitationChange(tFinal: real, ifInitial: real, ifFinal: real)
    | Overload(factor: real, tFinal: real)
  {
    /** The name simulate_scenario dispatches on, which is also the 'scenario' entry. */
    function Name(): string {
      match this
      case Startup(_) => "startup"
      case LoadIncrease(_, _) => "load_increase"
      case ExcitationChange(_, _, _) => "excitation_change"
      case Overload(_, _) => "overload"
    }

    /** The 'description' entry. */
    function Description(text: FloatText): string {
      match this
      case Startup(_) => "Arranque del motor desde reposo hasta velocidad síncrona"
      case LoadIncrease(_, steps) => "Aumento gradual de carga en " + IntText(steps) + " pasos"
      case ExcitationChange(_, i0, i1) => "Cambio de excitación: " + text(i0) + "A → " + text(i1) + "A"
      case Overload(k, _) => "Sobrecarga " + text(k) + "x que puede causar inestabilidad"
    }

    /** The record the scenario integrates: startup runs unloaded, overload scales the load. */
    function Loaded(m: Parameters): Parameters {
      match this
      case Startup(_) => m.(TLoad := 0.0)
      case Overload(k, _) => m.(TLoad := m.TLoad * k)
      case _ => m
    }

    /** The initial (omega_m, delta) of the integration. */
    function Initial(tr: Transcendentals, m: Parameters): (real, real)
      requires tr.Valid() && m.p != 0.0
    {
      match this
      case Startup(_) => (0.0, 0.0)
      case LoadIncrease(_, _) => (SynchronousSpeedRadps(tr, m.f, m.p), 0.1)
      case ExcitationChange(_, _, _) => (SynchronousSpeedRadps(tr, m.f, m.p), 0.2)
      case Overload(_, _) => (SynchronousSpeedRadps(tr, m.f, m.p), 0.5)
    }

    /** The arguments the scenario can be run with without dividing by zero. */
    predicate Defined() {
      ExcitationChange? ==> tFinal != 0.0
    }
  }

  /** simulate_scenario called without keyword arguments: each scenario's defaults. */
  function DefaultScenario(name: string): (r: Option<EngineScenario>)
    ensures r.Some? ==> r.value.Name() == name && r.value.Defined()
    ensures r.Some? <==> name in {"startup", "load_increase", "excitation_change", "overload"}
  {
    if name == "startup" then Some(Startup(2.0))
    else if name == "load_increase" then Some(LoadIncrease(5.0, 5))
    else if name == "excitation_change" then Some(ExcitationChange(3.0, 1.0, 4.0))
    else if name == "overload" then Some(Overload(1.5, 2.0))
    else None
  }

  /** The scenario's own entry, computed from the record it starts from. */
  function ExtraOf(sc: EngineScenario, m: Parameters): Extra
    requires sc.Defined()
  {
    var times := Arrays.Linspace(0.0, sc.tFinal, SampleCount);
    match sc
    case Startup(_) => NoExtra
    case LoadIncrease(tFinal, steps) => LoadProfile(LoadProfileValues(times, tFinal, steps, m.TLoad))
    case ExcitationChange(tFinal, i0, i1) => ExcitationProfile(ExcitationProfileOf(times, i0, i1, tFinal))
    case Overload(k, _) => OverloadFactor(k)
  }

  /** What an engine scenario returns: the transient of the record it integrates, from its
      initial conditions over [0, t_final], labelled; an integration that raises propagates. */
  function ScenarioRun(tr: Transcendentals, solve: IvpSolver, text: FloatText, sc: EngineScenario, m: Parameters): (r: Result<EngineRun>)
    requires tr.Valid() && Dynamic(m) && sc.Defined()
    ensures r.Ok? <==> ValidConnection(m.connection)
    ensures r.Err? ==> r.error == InvalidConnection
    ensures r.Ok? ==>
      && r.value.scenario == sc.Name() && r.value.description == sc.Description(text)
      && r.value.extra == ExtraOf(sc, m)
      && (r.value.transient.Some? ==> r.value.transient.value.Sized())
  {
    var initial := sc.Initial(tr, m);
    var sim :- TransientResponse(tr, solve, sc.Loaded(m), 0.0, sc.tFinal, initial.0, initial.1);
    Ok(EngineRun(sim, sc.Name(), sc.Description(text), ExtraOf(sc, m)))
  }

  /** The record a scenario leaves: the last sample's angle, speed and time after a successful
      run, whose load torque is restored; the loaded record when the integration raised. */
  function ScenarioExit(s: Snapshot, sc: EngineScenario, r: Result<EngineRun>): Snapshot
    requires r.Ok? && r.value.transient.Some? ==> r.value.transient.value.Sized()
  {
    if r.Ok? then AfterTransient(s, r.value.transient) else s.(params := sc.Loaded(s.params))
  }

  /** Every sample of a scenario's transient carries the load torque of the record it
      integrated (zero for startup, the scaled load for overload), on a grid from 0 to
      t_final. */
  lemma ScenarioSamples(tr: Transcendentals, solve: IvpSolver, text: FloatText, sc: EngineScenario, m: Parameters)
    requires tr.Valid() && Dynamic(m) && sc.Defined()
    requires ScenarioRun(tr, solve, text, sc, m).Ok? && ScenarioRun(tr, solve, text, sc, m).value.transient.Some?
    ensures var x := ScenarioRun(tr, solve, text, sc, m).value.transient.value;
      && x.time[0] == 0.0 && x.time[SampleCount - 1] == sc.tFinal
      && forall k :: 0 <= k < SampleCount ==> x.tLoad[k] == sc.Loaded(m).TLoad
  {
    var initial := sc.Initial(tr, m);
    var sol := solve(sc.Loaded(m), 0.0, sc.tFinal, initial.0, initial.1).value;
    TransientSamples(tr, sc.Loaded(m), sol, 0.0, sc.tFinal);
    var x := Sampled(tr, sc.Loaded(m), sol, 0.0, sc.tFinal);
    forall k | 0 <= k < SampleCount ensures x.tLoad[k] == sc.Loaded(m).TLoad {
      assert SampleHolds(tr, sc.Loaded(m), x, k);
    }
  }

  /** The scenario the default arguments select reports the name it was selected by. */
  lemma DefaultScenarioLabel(tr: Transcendentals, solve: IvpSolver, text: FloatText, name: string, m: Parameters)
    requires tr.Valid() && Dynamic(m) && DefaultScenario(name).Some?
    requires ScenarioRun(tr, solve, text, DefaultScenario(name).value, m).Ok?
    ensures ScenarioRun(tr, solve, text, DefaultScenario(name).value, m).value.scenario == name
  {
  }

  /** Decimal text of an integer, as an f-string prints it. */
  function IntText(i: int): (r: string)
    ensures |r| > 0
  {
    if i < 0 then "-" + NatText(-i) else NatText(i)
  }

  function NatText(n: nat): (r: string)
    ensures |r| > 0 && forall c :: c in r ==> '0' <= c <= '9'
  {
    var digit := ['0' + (n % 10) as char];
    if n < 10 then digit else NatText(n / 10) + digit
  }

  /** The step of the load profile of _scenario_load_increase that sample t falls in: step i
      covers [i tF / steps, (i + 1) tF / steps]. */
  predicate InLoadStep(t: real, tFinal: real, steps: int, i: int)
    requires steps > 0
  {
    (i as real) * tFinal / (steps as real) <= t <= ((i + 1) as real) * tFinal / (steps as real)
  }

  /** The profile value at t after the first i steps have written theirs: step i writes
      (i + 1) T_load / steps over its interval, later steps overwriting earlier ones. */
  function ProfileValue(t: real, tFinal: real, steps: int, tLoad: real, i: nat): real
    requires i <= steps || i == 0
  {
    if i == 0 then 0.0
    else if InLoadStep(t, tFinal, steps, i - 1) then (i as real) * tLoad / (steps as real)
    else ProfileValue(t, tFinal, steps, tLoad, i - 1)
  }

  /** T_load_profile: the value of each sample once all steps have written theirs; no step
      writes when load_steps is not positive. */
  function LoadProfileValues(times: seq<real>, tFinal: real, steps: int, tLoad: real): (r: seq<real>)
    ensures |r| == |times|
  {
    seq(|times|, k requires 0 <= k < |times| => ProfileValue(times[k], tFinal, steps, tLoad, if steps > 0 then steps else 0))
  }

  /** Builds T_load_profile in place: a zeroed array, then for each step the samples inside
      its interval are overwritten with that step's load. */
  method BuildLoadProfile(times: seq<real>, tFinal: real, steps: int, tLoad: real) returns (profile: array<real>)
    ensures fresh(profile)
    ensures profile[..] == LoadProfileValues(times, tFinal, steps, tLoad)
  {
    profile := new real[|times|](_ => 0.0);
    var i: nat := 0;
    while i < steps
      invariant i <= steps || i == 0
      invariant profile.Length == |times|
      invariant forall j :: 0 <= j < |times| ==> profile[j] == ProfileValue(times[j], tFinal, steps, tLoad, i)
    {
      var tStart := (i as real) * tFinal / (steps as real);
      var tEnd := ((i + 1) as real) * tFinal / (steps as real);
      var value := ((i + 1) as real) * tLoad / (steps as real);
      for k := 0 to |times|
        invariant forall j :: 0 <= j < k ==> profile[j] == ProfileValue(times[j], tFinal, steps, tLoad, i + 1)
        invariant forall j :: k <= j < |times| ==> profile[j] == ProfileValue(times[j], tFinal, steps, tLoad, i)
      {
        if tStart <= times[k] && times[k] <= tEnd {
          profile[k] := value;
        }
      }
      i := i + 1;
    }
    assert profile[..] == LoadProfileValues(times, tFinal, steps, tLoad);
  }

  /** With a positive duration and at least one step, the profile starts at T_load / steps at
      t = 0 and ends at the full T_load at t = t_final. */
  lemma {:induction false} LoadProfileEnds(tFinal: real, steps: nat, tLoad: real, i: nat)
    requires 0.0 < tFinal && 1 <= i <= steps
    ensures ProfileValue(0.0, tFinal, steps, tLoad, i) == tLoad / (steps as real)
    ensures i == steps ==> ProfileValue(tFinal, tFinal, steps, tLoad, i) == tLoad
  {
    var n := steps as real;
    if i == 1 {
      assert InLoadStep(0.0, tFinal, steps, 0) by {
        MulNonnegative(1.0, tFinal);
        assert 0.0 <= 1.0 * tFinal / n;
      }
    } else {
      var k := (i - 1) as real;
      assert 0.0 < k * tFinal by { MulPositive(k, tFinal); }
      assert !InLoadStep(0.0, tFinal, steps, i - 1);
      LoadProfileEnds(tFinal, steps, tLoad, i - 1);
    }
    if i == steps {
      var k := (i - 1) as real;
      assert k * tFinal <= n * tFinal by { MulNonnegative(n - k, tFinal); }
      assert InLoadStep(tFinal, tFinal, steps, i - 1);
      assert (i as real) * tLoad / n == tLoad;
    }
  }

  /** If_profile of _scenario_excitation_change: linear from If_initial at t = 0 to If_final at
      t = t_final. */
  function ExcitationProfileOf(times: seq<real>, ifInitial: real, ifFinal: real, tFinal: real): (r: seq<real>)
    requires tFinal != 0.0
    ensures |r| == |times|
  {
    seq(|times|, k requires 0 <= k < |times| => ifInitial + (ifFinal - ifInitial) * times[k] / tFinal)
  }

  /** The excitation profile over the scenario's grid starts at If_initial and ends at If_final. */
  lemma ExcitationProfileEnds(ifInitial: real, ifFinal: real, tFinal: real)
    requires tFinal != 0.0
    ensures var r := ExcitationProfileOf(Arrays.Linspace(0.0, tFinal, SampleCount), ifInitial, ifFinal, tFinal);
      r[0] == ifInitial && r[SampleCount - 1] == ifFinal
  {
    var times := Arrays.Linspace(0.0, tFinal, SampleCount);
    Arrays.LinspaceUniform(0.0, tFinal, SampleCount);
    assert times[SampleCount - 1] == tFinal;
    Arrays.Cancel(ifFinal - ifInitial, tFinal);
  }

  /** SimulationEngine: the engine over one shared motor record. */
  class SimulationEngine {
    const motor: SynchronousMotor

    constructor(motor: SynchronousMotor)
      ensures this.motor == motor
    {
      this.motor := motor;
    }

    /** solve_steady_state: override the keyword arguments that name attributes (saving their
        values), set the angle to the root of T_e(delta) = T_load, analyse, then restore the
        saved values. For an unknown connection the root finder and the fallback analysis
        raise, and nothing is restored. */
    method SolveSteadyState(tr: Transcendentals, fsolve: RootFinder, fixed: seq<(string, Value)>)
      returns (r: Result<SteadyState>)
      requires tr.Valid() && DistinctNames(fixed) && WellTyped(Resolve(fixed))
      requires Nondegenerate(Override(motor.State(), Resolve(fixed)).params)
      modifies motor
      ensures var s := Override(old(motor.State()), Resolve(fixed));
        && r == SteadyStateAnalysis(tr, s.params)
        && (r.Err? ==> motor.State() == s)
        && (r.Ok? ==> motor.State() == SolvedState(old(motor.State()), fixed, fsolve(s.params)))
    {
      ghost var s0 := motor.State();
      var u := Resolve(fixed);
      ResolveDistinct(fixed);
      var saved := motor.SaveAndApply(u);
      if !ValidConnection(motor.connection) {
        return Err(InvalidConnection);
      }
      motor.delta := fsolve(motor.Params());
      r := SteadyStateAnalysis(tr, motor.Params());
      motor.ApplyUpdates(saved);
      RestoreAfterSolve(s0, fixed, fsolve(Override(s0, u).params));
    }

    /** simulate_transient_response: integrate, then walk the 1000 samples, leaving each
        sample's angle, speed and time in the record and computing T_e and P at it. */
    method SimulateTransientResponse(tr: Transcendentals, solve: IvpSolver, t0: real, t1: real, omega0: real, delta0: real)
      returns (r: Result<Option<Transient>>)
      requires tr.Valid() && Dynamic(motor.Params())
      modifies motor
      ensures r == TransientResponse(tr, solve, old(motor.Params()), t0, t1, omega0, delta0)
      ensures r.Ok? ==> motor.State() == AfterTransient(old(motor.State()), r.value)
      ensures r.Err? ==> motor.State() == old(motor.State())
    {
      var m := motor.Params();
      if !ValidConnection(m.connection) {
        return Err(InvalidConnection);
      }
      var sol := solve(m, t0, t1, omega0, delta0);
      if sol.None? {
        return Ok(None);
      }
      var time := Arrays.Linspace(t0, t1, SampleCount);
      var omegas := Component(sol.value, time, true);
      var deltas := Component(sol.value, time, false);
      var te, p, q, pf := WalkSamples(tr, time, omegas, deltas);
      r := Ok(Some(Transient(time, omegas, deltas, InDegrees(tr, deltas), Constant(m.TLoad), te, p, q, pf)));
    }

    /** The post-processing loop: each sample's angle, speed and time go into the record, and
        T_e, P, Q and pf are computed at it. */
    method WalkSamples(tr: Transcendentals, time: seq<real>, omegas: seq<real>, deltas: seq<real>)
      returns (te: seq<real>, p: seq<real>, q: seq<real>, pf: seq<real>)
      requires tr.Valid() && Dynamic(motor.Params()) && ValidConnection(motor.connection)
      requires |time| == |omegas| == |deltas| == SampleCount
      modifies motor
      ensures te == Torques(tr, old(motor.Params()), deltas).value
      ensures p == Scaled(te, SynchronousSpeedRadps(tr, old(motor.f), old(motor.p)))
      ensures q == Constant(0.0) && pf == Constant(1.0)
      ensures motor.State() == old(motor.State()).(delta := deltas[SampleCount - 1], omegaM := omegas[SampleCount - 1],
                                                   time := time[SampleCount - 1])
    {
      ghost var m := motor.Params();
      ghost var torques := Torques(tr, m, deltas).value;
      ghost var omegaS := SynchronousSpeedRadps(tr, m.f, m.p);
      te, p, q, pf := [], [], [], [];
      for i := 0 to SampleCount
        invariant motor.Params() == m
        invariant i == 0 ==> motor.State() == old(motor.State())
        invariant i > 0 ==> motor.State() == old(motor.State()).(delta := deltas[i - 1], omegaM := omegas[i - 1], time := time[i - 1])
        invariant te == torques[..i] && p == Scaled(torques, omegaS)[..i]
        invariant q == Constant(0.0)[..i] && pf == Constant(1.0)[..i]
      {
        motor.delta := deltas[i];
        motor.omegaM := omegas[i];
        motor.time := time[i];
        var torque := TorqueFromAngle(tr, motor.Params(), deltas[i]).value;
        var speed := SynchronousSpeedRadps(tr, motor.f, motor.p);
        ScaledStep(torques, omegaS, i, torque, speed, p);
        te := te + [torque];
        p := p + [torque * speed];
        q := q + [0.0];
        pf := pf + [1.0];
      }
      assert te == torques && p == Scaled(torques, omegaS) && q == Constant(0.0) && pf == Constant(1.0);
    }

    /** parameter_sweep: getattr on the parameter (AttributeError when it names no attribute),
        then for each of n values evenly spaced over [lo, hi]: set it, apply the fixed keyword
        arguments, solve; finally restore the swept attribute, and only it. */
    method ParameterSweep(tr: Transcendentals, fsolve: RootFinder, parameter: string, lo: real, hi: real, n: nat,
                          fixed: seq<(string, Value)>)
      returns (r: Result<seq<SweepPoint>>)
      requires tr.Valid() && WellTyped(Resolve(fixed)) && AttrNamed(parameter) != Some(Connection)
      requires AttrNamed(parameter).Some? ==>
        SweepDefined(motor.State(), AttrNamed(parameter).value, Arrays.Linspace(lo, hi, n), fixed)
      modifies motor
      ensures AttrNamed(parameter).None? ==> r == Err(UnknownAttribute) && motor.State() == old(motor.State())
      ensures AttrNamed(parameter).Some? ==>
        var a, values := AttrNamed(parameter).value, Arrays.Linspace(lo, hi, n);
        && r == Sweep(tr, old(motor.State()), a, parameter, values, fixed)
        && motor.State() == SweepExit(old(motor.State()), fsolve, a, values, fixed, r.Ok?)
    {
      var values := Arrays.Linspace(lo, hi, n);
      var found := AttrNamed(parameter);
      if found.None? {
        return Err(UnknownAttribute);
      }
      r := SweepValues(tr, fsolve, found.value, parameter, values, fixed);
    }

    /** The loop of parameter_sweep over the given values, then the restore of the swept
        attribute. */
    method SweepValues(tr: Transcendentals, fsolve: RootFinder, a: Attr, parameter: string, values: seq<real>,
                       fixed: seq<(string, Value)>)
      returns (r: Result<seq<SweepPoint>>)
      requires tr.Valid() && a != Connection && WellTyped(Resolve(fixed))
      requires SweepDefined(motor.State(), a, values, fixed)
      modifies motor
      ensures r == Sweep(tr, old(motor.State()), a, parameter, values, fixed)
      ensures motor.State() == SweepExit(old(motor.State()), fsolve, a, values, fixed, r.Ok?)
    {
      ghost var s0 := motor.State();
      var original := motor.State().Get(a);
      WithOwnValue(s0, a);
      var results: seq<SweepPoint> := [];
      for i := 0 to |values|
        invariant i == 0 ==> motor.State() == s0
        invariant i > 0 ==>
          var last := SweepRecord(s0, a, values[i - 1], fixed);
          motor.State() == last.(delta := fsolve(last.params))
        invariant SweepPrefix(tr, s0, a, parameter, values, i, fixed) == Ok(results)
      {
        var point := SweepStep(tr, fsolve, s0, a, parameter, values, i, fixed);
        SweepNext(tr, s0, a, parameter, values, i, fixed, results, point);
        if point.Err? {
          return Err(point.error);
        }
        results := results + [point.value];
      }
      assert SweepExit(s0, fsolve, a, values, fixed, true) == motor.State().With(a, original);
      motor.SetAttr(a, original);
      r := Ok(results);
    }

    /** One iteration of parameter_sweep, from the record the previous one left. */
    method SweepStep(tr: Transcendentals, fsolve: RootFinder, ghost s0: Snapshot, a: Attr, parameter: string,
                     values: seq<real>, i: nat, fixed: seq<(string, Value)>)
      returns (r: Result<SweepPoint>)
      requires tr.Valid() && a != Connection && WellTyped(Resolve(fixed)) && i < |values|
      requires SweepDefined(s0, a, values, fixed)
      requires i == 0 ==> motor.State() == s0
      requires i > 0 ==>
        var last := SweepRecord(s0, a, values[i - 1], fixed);
        motor.State() == last.(delta := fsolve(last.params))
      modifies motor
      ensures var rec := SweepRecord(s0, a, values[i], fixed);
        && (r.Ok? <==> ValidConnection(rec.params.connection))
        && (r.Err? ==> r.error == InvalidConnection)
        && (r.Ok? ==> AnalysedAt(tr, s0, a, parameter, values[i], fixed, r.value))
        && (r.Ok? ==> motor.State() == rec.(delta := fsolve(rec.params)))
        && (r.Err? && i == 0 ==> motor.State() == rec)
    {
      ghost var prev := motor.State();
      ghost var rec := SweepRecord(s0, a, values[i], fixed);
      if i > 0 {
        var last := SweepRecord(s0, a, values[i - 1], fixed);
        forall b | b != a && b != RotorAngle && Lookup(Resolve(fixed), b).None?
          ensures prev.Get(b) == s0.Get(b)
        {
          SweepRecordReads(s0, a, values[i - 1], fixed, fsolve(last.params), b);
        }
      }
      motor.SetAttr(a, Num(values[i]));
      motor.ApplyUpdates(Resolve(fixed));
      ghost var here := motor.State();
      assert here == SweepRecord(prev, a, values[i], fixed);
      SweepStepRecord(s0, prev, a, values[i], fixed, 0.0);
      assert here.params == rec.params;
      SweepStepRecord(s0, prev, a, values[i], fixed, fsolve(rec.params));
      var solved := SolveSteadyState(tr, fsolve, []);
      if solved.Err? {
        return Err(solved.error);
      }
      r := Ok(SweepPoint("parameter_" + parameter, values[i], solved.value));
    }

    /** The common body of the engine scenarios: integrate the scenario's record from its
        initial conditions, then put back the load torque the scenario changed. */
    method RunScenario(tr: Transcendentals, solve: IvpSolver, text: FloatText, sc: EngineScenario)
      returns (r: Result<EngineRun>)
      requires tr.Valid() && Dynamic(motor.Params()) && sc.Defined()
      modifies motor
      ensures r == ScenarioRun(tr, solve, text, sc, old(motor.Params()))
      ensures motor.State() == ScenarioExit(old(motor.State()), sc, r)
    {
      var m := motor.Params();
      var extra := NoExtra;
      if sc.LoadIncrease? {
        var times := Arrays.Linspace(0.0, sc.tFinal, SampleCount);
        var profile := BuildLoadProfile(times, sc.tFinal, sc.loadSteps, motor.TLoad);
        extra := LoadProfile(profile[..]);
      } else if sc.ExcitationChange? {
        extra := ExcitationProfile(ExcitationProfileOf(Arrays.Linspace(0.0, sc.tFinal, SampleCount), sc.ifInitial, sc.ifFinal, sc.tFinal));
      } else if sc.Overload? {
        extra := OverloadFactor(sc.factor);
      }
      var initial := sc.Initial(tr, m);
      var original := motor.TLoad;
      motor.TLoad := sc.Loaded(m).TLoad;
      var sim := SimulateTransientResponse(tr, solve, 0.0, sc.tFinal, initial.0, initial.1);
      if sim.Err? {
        return Err(sim.error);
      }
      motor.TLoad := original;
      r := Ok(EngineRun(sim.value, sc.Name(), sc.Description(text), extra));
    }

    /** _scenario_startup: from rest, unloaded. */
    method ScenarioStartup(tr: Transcendentals, solve: IvpSolver, text: FloatText, tFinal: real)
      returns (r: Result<EngineRun>)
      requires tr.Valid() && Dynamic(motor.Params())
      modifies motor
      ensures r == ScenarioRun(tr, solve, text, Startup(tFinal), old(motor.Params()))
      ensures motor.State() == ScenarioExit(old(motor.State()), Startup(tFinal), r)
    {
      r := RunScenario(tr, solve, text, Startup(tFinal));
    }

    /** _scenario_load_increase: from synchronous speed at 0.1 rad, with a stepped load
        profile that is reported but not integrated. */
    method ScenarioLoadIncrease(tr: Transcendentals, solve: IvpSolver, text: FloatText, tFinal: real, loadSteps: int)
      returns (r: Result<EngineRun>)
      requires tr.Valid() && Dynamic(motor.Params())
      modifies motor
      ensures r == ScenarioRun(tr, solve, text, LoadIncrease(tFinal, loadSteps), old(motor.Params()))
      ensures motor.State() == ScenarioExit(old(motor.State()), LoadIncrease(tFinal, loadSteps), r)
    {
      r := RunScenario(tr, solve, text, LoadIncrease(tFinal, loadSteps));
    }

    /** _scenario_excitation_change: from synchronous speed at 0.2 rad, with a linear excitation
        profile that is reported but not integrated. */
    method ScenarioExcitationChange(tr: Transcendentals, solve: IvpSolver, text: FloatText, tFinal: real,
                                    ifInitial: real, ifFinal: real)
      returns (r: Result<EngineRun>)
      requires tr.Valid() && Dynamic(motor.Params()) && tFinal != 0.0
      modifies motor
      ensures r == ScenarioRun(tr, solve, text, ExcitationChange(tFinal, ifInitial, ifFinal), old(motor.Params()))
      ensures motor.State() == ScenarioExit(old(motor.State()), ExcitationChange(tFinal, ifInitial, ifFinal), r)
    {
      r := RunScenario(tr, solve, text, ExcitationChange(tFinal, ifInitial, ifFinal));
    }

    /** _scenario_overload: from synchronous speed at 0.5 rad with the load scaled by the
        factor. */
    method ScenarioOverload(tr: Transcendentals, solve: IvpSolver, text: FloatText, factor: real, tFinal: real)
      returns (r: Result<EngineRun>)
      requires tr.Valid() && Dynamic(motor.Params())
      modifies motor
      ensures r == ScenarioRun(tr, solve, text, Overload(factor, tFinal), old(motor.Params()))
      ensures motor.State() == ScenarioExit(old(motor.State()), Overload(factor, tFinal), r)
    {
      r := RunScenario(tr, solve, text, Overload(factor, tFinal));
    }

    /** simulate_scenario without keyword arguments: dispatch on the name, ValueError for an
        unknown one. */
    method SimulateScenario(tr: Transcendentals, solve: IvpSolver, text: FloatText, name: string)
      returns (r: Result<EngineRun>)
      requires tr.Valid() && Dynamic(motor.Params())
      modifies motor
      ensures DefaultScenario(name).None? ==> r == Err(UnknownScenario) && motor.State() == old(motor.State())
      ensures DefaultScenario(name).Some? ==>
        && r == ScenarioRun(tr, solve, text, DefaultScenario(name).value, old(motor.Params()))
        && motor.State() == ScenarioExit(old(motor.State()), DefaultScenario(name).value, r)
      ensures r.Ok? ==> r.value.scenario == name
    {
      var sc := DefaultScenario(name);
      if sc.None? {
        return Err(UnknownScenario);
      }
      match sc.value
      case Startup(tFinal) => r := ScenarioStartup(tr, solve, text, tFinal);
      case LoadIncrease(tFinal, steps) => r := ScenarioLoadIncrease(tr, solve, text, tFinal, steps);
      case ExcitationChange(tFinal, i0, i1) => r := ScenarioExcitationChange(tr, solve, text, tFinal, i0, i1);
      case Overload(k, tFinal) => r := ScenarioOverload(tr, solve, text, k, tFinal);
    }
  }
}

/** The preconfigured scenarios of scenarios.py: a catalogue of names and descriptions, a
    dispatcher, and scenario runs that change the load torque or the excitation of the shared
    motor record, integrate it through the engine, combine the pieces and put back what they
    changed. */
module Scenarios {
  import opened Wrappers
  import opened Transcendental
  import opened Units
  import Arrays
  import opened MotorModel
  import opened Engine

  // ---------------------------------------------------------------- catalogue

  const Unknown: string := "Escenario desconocido"

  /** The entries of run_scenario's dispatch table, with their names and the descriptions
      get_scenario_description gives them. */
  datatype Entry =
    | StartupIdeal | LoadIncreaseGradual | ExcitationSubToOver | ExcitationOverToSub
    | OverloadTest | FrequencyVariation | VoltageSag
  {
    function Name(): string {
      match this
      case StartupIdeal => "startup_ideal"
      case LoadIncreaseGradual => "load_increase_gradual"
      case ExcitationSubToOver => "excitation_sub_to_over"
      case ExcitationOverToSub => "excitation_over_to_sub"
      case OverloadTest => "overload_test"
      case FrequencyVariation => "frequency_variation"
      case VoltageSag => "voltage_sag"
    }

    function Description(): string {
      match this
      case StartupIdeal => "Arranque ideal desde reposo hasta velocidad síncrona"
      case LoadIncreaseGradual => "Aumento gradual de carga para analizar estabilidad"
      case ExcitationSubToOver => "Cambio de excitación de subexcitado a sobreexcitado"
      case ExcitationOverToSub => "Cambio de excitación de sobreexcitado a subexcitado"
      case OverloadTest => "Prueba de sobrecarga para determinar límite de estabilidad"
      case FrequencyVariation => "Variación de frecuencia de la red"
      case VoltageSag => "Caída temporal de tensión"
    }
  }

  /** run_scenario's table lookup: the entry of that name, if any. */
  function Dispatch(name: string): (r: Option<Entry>)
    ensures r.Some? ==> r.value.Name() == name
  {
    if name == "startup_ideal" then Some(StartupIdeal)
    else if name == "load_increase_gradual" then Some(LoadIncreaseGradual)
    else if name == "excitation_sub_to_over" then Some(ExcitationSubToOver)
    else if name == "excitation_over_to_sub" then Some(ExcitationOverToSub)
    else if name == "overload_test" then Some(OverloadTest)
    else if name == "frequency_variation" then Some(FrequencyVariation)
    else if name == "voltage_sag" then Some(VoltageSag)
    else None
  }

  /** Dispatch finds every entry by its name, so a name it does not find belongs to no entry. */
  lemma DispatchFindsEveryEntry(e: Entry)
    ensures Dispatch(e.Name()) == Some(e)
  {
    match e
    case StartupIdeal =>
    case LoadIncreaseGradual =>
      assert e.Name() != "startup_ideal";
    case ExcitationSubToOver =>
      assert e.Name() != "startup_ideal" && e.Name() != "load_increase_gradual";
    case ExcitationOverToSub =>
      assert e.Name() != "startup_ideal" && e.Name() != "load_increase_gradual";
      assert e.Name() != "excitation_sub_to_over" by { assert e.Name()[11] != "excitation_sub_to_over"[11]; }
    case OverloadTest =>
      assert e.Name()[0] == 'o';
    case FrequencyVariation =>
      assert e.Name()[0] == 'f';
    case VoltageSag =>
      assert e.Name()[0] == 'v';
  }

  /** get_available_scenarios, in its order: seven names, each one Dispatch finds as the entry
      of that name. */
  function GetAvailableScenarios(): (r: seq<string>)
    ensures |r| == 7
    ensures forall k :: 0 <= k < |r| ==> Dispatch(r[k]).Some? && Dispatch(r[k]).value.Name() == r[k]
  {
    var r := ["startup_ideal", "load_increase_gradual", "excitation_sub_to_over", "excitation_over_to_sub",
              "overload_test", "frequency_variation", "voltage_sag"];
    var all := [StartupIdeal, LoadIncreaseGradual, ExcitationSubToOver, ExcitationOverToSub,
                OverloadTest, FrequencyVariation, VoltageSag];
    assert forall k :: 0 <= k < 7 ==> r[k] == all[k].Name();
    EntriesFound(all);
    r
  }

  /** Dispatch finds each of the given entries by its name. */
  lemma EntriesFound(all: seq<Entry>)
    ensures forall k :: 0 <= k < |all| ==> Dispatch(all[k].Name()) == Some(all[k])
  {
    forall k | 0 <= k < |all|
      ensures Dispatch(all[k].Name()) == Some(all[k])
    {
      DispatchFindsEveryEntry(all[k]);
    }
  }

  /** get_scenario_description: the entry's description, or 'Escenario desconocido'. */
  function GetScenarioDescription(name: string): (r: string)
    ensures Dispatch(name).None? ==> r == Unknown
    ensures Dispatch(name).Some? ==> r == Dispatch(name).value.Description()
  {
    match Dispatch(name)
    case None => Unknown
    case Some(e) => e.Description()
  }

  /** The available scenarios are exactly the names run_scenario dispatches, each listed once,
      and each has a description of its own. */
  lemma CatalogueComplete(name: string)
    ensures name in GetAvailableScenarios() <==> Dispatch(name).Some?
    ensures name in GetAvailableScenarios() ==> GetScenarioDescription(name) != Unknown
    ensures forall i, j :: 0 <= i < j < |GetAvailableScenarios()| ==> GetAvailableScenarios()[i] != GetAvailableScenarios()[j]
  {
    var all := [StartupIdeal, LoadIncreaseGradual, ExcitationSubToOver, ExcitationOverToSub,
                OverloadTest, FrequencyVariation, VoltageSag];
    assert forall i :: 0 <= i < 7 ==> GetAvailableScenarios()[i] == all[i].Name();
    if Dispatch(name).Some? {
      var e := Dispatch(name).value;
      assert e in all;
    }
    CatalogueDistinct();
  }

  /** No name is listed twice: Dispatch maps the names to seven different entries. */
  lemma CatalogueDistinct()
    ensures forall i, j :: 0 <= i < j < |GetAvailableScenarios()| ==> GetAvailableScenarios()[i] != GetAvailableScenarios()[j]
  {
    var all := [StartupIdeal, LoadIncreaseGradual, ExcitationSubToOver, ExcitationOverToSub,
                OverloadTest, FrequencyVariation, VoltageSag];
    forall i, j | 0 <= i < j < 7
      ensures GetAvailableScenarios()[i] != GetAvailableScenarios()[j]
    {
      assert GetAvailableScenarios()[i] == all[i].Name() && GetAvailableScenarios()[j] == all[j].Name();
      DispatchFindsEveryEntry(all[i]);
      DispatchFindsEveryEntry(all[j]);
    }
  }

  // ---------------------------------------------------------------- results

  /** One segment of the load-increase scenario: its transient (None for the empty dictionary
      of a failed integration) with 'load_ratio' and 'T_load_step'. */
  datatype StepRun = StepRun(transient: Option<Transient>, loadRatio: real, tLoadStep: real)

  /** The dictionary _combine_step_results builds. */
  datatype Combined = Combined(
    time: seq<real>, omegaM: seq<real>, delta: seq<real>, deltaDeg: seq<real>,
    te: seq<real>, tLoad: seq<real>, loadSteps: seq<real>)

  /** One overload trial: its transient with 'overload_ratio' and 'stable'. */
  datatype OverloadTrial = OverloadTrial(transient: Transient, ratio: real, stable: bool)

  /** The dictionary _combine_overload_results builds. */
  datatype OverloadSummary = OverloadSummary(
    ratios: seq<real>, stability: seq<bool>, maxDeltas: seq<real>, maxOmegaDeviations: seq<real>)

  /** What a scenario returns, with its configuration entries. */
  datatype ScenarioResult =
    | StartupResult(transient: Option<Transient>, tFinal: real, initialOmegaRatio: real, omegaS: real, nS: real)
    | LoadIncreaseResult(combined: Option<Combined>, description: string, tFinal: real, loadSteps: int, maxLoadRatio: real)
    | ExcitationResult(run: Transient, ifProfile: seq<real>, pfProfile: seq<real>, pProfile: seq<real>, qProfile: seq<real>,
                       direction: string, description: string, tFinal: real, ifInitial: real, ifFinal: real)
    | OverloadResult(summary: Option<OverloadSummary>, description: string, overloadRatios: seq<real>, tFinal: real)
    | PlaceholderResult(placeholder: string)
  {
    /** The 'name' entry of the configuration. */
    function Name(): string {
      match this
      case StartupResult(_, _, _, _, _) => StartupIdeal.Name()
      case LoadIncreaseResult(_, _, _, _, _) => LoadIncreaseGradual.Name()
      case ExcitationResult(_, _, _, _, _, direction, _, _, _, _) => "excitation_" + direction
      case OverloadResult(_, _, _, _) => OverloadTest.Name()
      case PlaceholderResult(name) => name
    }
  }

  // ---------------------------------------------------------------- stability and combination

  /** |x_i - c| for every sample. */
  function Deviations(xs: seq<real>, c: real): (r: seq<real>)
    ensures |r| == |xs| && forall i :: 0 <= i < |xs| ==> r[i] == Arrays.Abs(xs[i] - c)
  {
    seq(|xs|, i requires 0 <= i < |xs| => Arrays.Abs(xs[i] - c))
  }

  /** _check_stability, judged by the two maxima: it holds exactly when the speed never strays
      5 rad/s or more from synchronous speed and the angle never reaches pi/2 in magnitude. */
  predicate CheckStability(tr: Transcendentals, m: Parameters, x: Transient): (stable: bool)
    requires tr.Valid() && m.p != 0.0 && |x.omegaM| > 0 && |x.delta| > 0
    ensures stable <==>
      && (forall i :: 0 <= i < |x.omegaM| ==> Arrays.Abs(x.omegaM[i] - SynchronousSpeedRadps(tr, m.f, m.p)) < 5.0)
      && (forall i :: 0 <= i < |x.delta| ==> Arrays.Abs(x.delta[i]) < tr.pi / 2.0)
  {
    var dev := Deviations(x.omegaM, SynchronousSpeedRadps(tr, m.f, m.p));
    var ang := Arrays.AbsAll(x.delta);
    MaxBelow(dev, 5.0);
    MaxBelow(ang, tr.pi / 2.0);
    && Arrays.Max(dev) < 5.0
    && Arrays.Max(ang) < tr.pi / 2.0
  }

  /** The largest element is below a bound exactly when every element is. */
  lemma MaxBelow(s: seq<real>, bound: real)
    requires |s| > 0
    ensures Arrays.Max(s) < bound <==> forall i :: 0 <= i < |s| ==> s[i] < bound
  {
    var j :| 0 <= j < |s| && s[j] == Arrays.Max(s);
  }

  /** Every segment ran and produced its samples. */
  predicate AllRan(runs: seq<StepRun>) {
    forall k :: 0 <= k < |runs| ==> runs[k].transient.Some? && runs[k].transient.value.Sized()
  }

  /** The series _combine_step_results concatenates. */
  datatype Column = Time | Speed | Angle | AngleDeg | Torque | Load

  function Pick(x: Transient, c: Column): seq<real> {
    match c
    case Time => x.time
    case Speed => x.omegaM
    case Angle => x.delta
    case AngleDeg => x.deltaDeg
    case Torque => x.te
    case Load => x.tLoad
  }

  /** One series of every segment, in segment order. */
  function Series(runs: seq<StepRun>, c: Column): (r: seq<seq<real>>)
    requires AllRan(runs)
    ensures |r| == |runs| && forall k :: 0 <= k < |runs| ==> r[k] == Pick(runs[k].transient.value, c)
  {
    seq(|runs|, k requires 0 <= k < |runs| && AllRan(runs) => Pick(runs[k].transient.value, c))
  }

  /** _combine_step_results: {} for no segments; KeyError when a segment's dictionary lacks
      the series (its integration failed); otherwise every series concatenated in segment
      order, and the ratios. */
  function CombineStepResults(runs: seq<StepRun>): (r: Result<Option<Combined>>)
    ensures r.Ok? <==> AllRan(runs)
    ensures r.Err? ==> r.error == MissingKey
    ensures r.Ok? ==> (r.value.None? <==> runs == [])
    ensures r.Ok? && r.value.Some? ==>
      && |r.value.value.loadSteps| == |runs|
      && forall k :: 0 <= k < |runs| ==> r.value.value.loadSteps[k] == runs[k].loadRatio
  {
    if runs == [] then Ok(None)
    else if !AllRan(runs) then Err(MissingKey)
    else
      Ok(Some(Combined(
        Arrays.Concat(Series(runs, Time)),
        Arrays.Concat(Series(runs, Speed)),
        Arrays.Concat(Series(runs, Angle)),
        Arrays.Concat(Series(runs, AngleDeg)),
        Arrays.Concat(Series(runs, Torque)),
        Arrays.Concat(Series(runs, Load)),
        seq(|runs|, k requires 0 <= k < |runs| => runs[k].loadRatio))))
  }

  /** In the combined time series, sample i of segment j sits at 1000 j + i, and the series
      is 1000 samples per segment long. */
  lemma CombinedLayout(runs: seq<StepRun>, j: nat, i: nat)
    requires AllRan(runs) && j < |runs| && i < SampleCount
    ensures var c := CombineStepResults(runs).value.value;
      && |c.time| == SampleCount * |runs| && |c.omegaM| == SampleCount * |runs| && |c.delta| == SampleCount * |runs|
      && c.time[SampleCount * j + i] == runs[j].transient.value.time[i]
      && c.omegaM[SampleCount * j + i] == runs[j].transient.value.omegaM[i]
      && c.delta[SampleCount * j + i] == runs[j].transient.value.delta[i]
  {
    ColumnLayout(runs, Time, j, i);
    ColumnLayout(runs, Speed, j, i);
    ColumnLayout(runs, Angle, j, i);
  }

  /** One concatenated series holds sample i of segment j at 1000 j + i. */
  lemma ColumnLayout(runs: seq<StepRun>, c: Column, j: nat, i: nat)
    requires AllRan(runs) && j < |runs| && i < SampleCount
    ensures var all := Arrays.Concat(Series(runs, c));
      && |all| == SampleCount * |runs|
      && all[SampleCount * j + i] == Pick(runs[j].transient.value, c)[i]
  {
    var parts := Series(runs, c);
    assert forall k :: 0 <= k < |parts| ==> |parts[k]| == SampleCount;
    UniformLength(parts, j);
    UniformLength(parts, |parts|);
    assert parts[..|parts|] == parts;
    Arrays.ConcatAt(parts, j, i);
  }

  /** Parts of 1000 samples each: the first j of them hold 1000 j samples. */
  lemma {:induction false} UniformLength(parts: seq<seq<real>>, j: nat)
    requires j <= |parts| && forall k :: 0 <= k < |parts| ==> |parts[k]| == SampleCount
    ensures Arrays.TotalLength(parts[..j]) == SampleCount * j
  {
    if j > 0 {
      UniformLength(parts, j - 1);
      assert parts[..j][..j - 1] == parts[..j - 1];
    }
  }

  /** Every trial holds a full transient: the one property of the trials the combination needs. */
  predicate AllSized(trials: seq<OverloadTrial>) {
    forall k :: 0 <= k < |trials| ==> trials[k].transient.Sized()
  }

  /** _combine_overload_results: {} for no trials; otherwise the ratios, the stability flags,
      the largest angle of each trial and its largest speed deviation. */
  function CombineOverloadResults(tr: Transcendentals, m: Parameters, trials: seq<OverloadTrial>): (r: Option<OverloadSummary>)
    requires tr.Valid() && m.p != 0.0
    requires AllSized(trials)
    ensures r.None? <==> trials == []
    ensures r.Some? ==>
      var c := r.value;
      && |c.ratios| == |c.stability| == |c.maxDeltas| == |c.maxOmegaDeviations| == |trials|
      && forall k :: 0 <= k < |trials| ==>
           && c.ratios[k] == trials[k].ratio && c.stability[k] == trials[k].stable
           && c.maxDeltas[k] == Arrays.Max(trials[k].transient.delta)
           && c.maxOmegaDeviations[k] == Arrays.Max(Deviations(trials[k].transient.omegaM, SynchronousSpeedRadps(tr, m.f, m.p)))
  {
    if trials == [] then None
    else
      var omegaS := SynchronousSpeedRadps(tr, m.f, m.p);
      Some(OverloadSummary(
        seq(|trials|, k requires 0 <= k < |trials| => trials[k].ratio),
        seq(|trials|, k requires 0 <= k < |trials| => trials[k].stable),
        MaxDeltas(trials),
        MaxDeviations(trials, omegaS)))
  }

  /** The largest angle of each trial, np.max(r['delta']). */
  function MaxDeltas(trials: seq<OverloadTrial>): (r: seq<real>)
    requires AllSized(trials)
    ensures |r| == |trials| && forall k :: 0 <= k < |trials| ==> r[k] == Arrays.Max(trials[k].transient.delta)
  {
    seq(|trials|, k requires 0 <= k < |trials| && trials[k].transient.Sized() => Arrays.Max(trials[k].transient.delta))
  }

  /** The largest speed deviation of each trial, np.max(np.abs(r['omega_m'] - omega_s)). */
  function MaxDeviations(trials: seq<OverloadTrial>, omegaS: real): (r: seq<real>)
    requires AllSized(trials)
    ensures |r| == |trials|
    ensures forall k :: 0 <= k < |trials| ==> r[k] == Arrays.Max(Deviations(trials[k].transient.omegaM, omegaS))
  {
    seq(|trials|, k requires 0 <= k < |trials| && trials[k].transient.Sized() =>
      Arrays.Max(Deviations(trials[k].transient.omegaM, omegaS)))
  }

  // ---------------------------------------------------------------- startup_ideal

  /** The integration scenario_startup_ideal runs: the unloaded motor over [0, t_final] from
      initial_omega_ratio times synchronous speed at angle 0. */
  function StartupResponse(tr: Transcendentals, solve: IvpSolver, m: Parameters, tFinal: real, ratio: real)
    : (r: Result<Option<Transient>>)
    requires tr.Valid() && Dynamic(m)
    ensures r.Ok? <==> ValidConnection(m.connection)
    ensures r.Ok? && r.value.Some? ==> r.value.value.Sized()
  {
    TransientResponse(tr, solve, m.(TLoad := 0.0), 0.0, tFinal, InitialSpeed(tr, m, ratio), 0.0)
  }

  /** The initial speed of the start-up: initial_omega_ratio times synchronous speed. */
  function InitialSpeed(tr: Transcendentals, m: Parameters, ratio: real): real
    requires tr.Valid() && m.p != 0.0
  {
    ratio * SynchronousSpeedRadps(tr, m.f, m.p)
  }

  /** scenario_startup_ideal: the start-up integration, then the load torque restored (left at
      zero when the integration raises). */
  function StartupOutcome(tr: Transcendentals, solve: IvpSolver, s: Snapshot, tFinal: real, ratio: real)
    : (r: (Result<ScenarioResult>, Snapshot))
    requires tr.Valid() && Dynamic(s.params)
    ensures r.0.Ok? <==> ValidConnection(s.params.connection)
    ensures r.0.Ok? ==> r.0.value.StartupResult? && r.1.params == s.params
    ensures r.0.Err? ==> r.1 == s.(params := s.params.(TLoad := 0.0))
  {
    var m := s.params;
    match StartupResponse(tr, solve, m, tFinal, ratio)
    case Err(e) => (Err(e), s.(params := m.(TLoad := 0.0)))
    case Ok(x) =>
      (Ok(StartupResult(x, tFinal, ratio, SynchronousSpeedRadps(tr, m.f, m.p), SynchronousSpeedRpm(m.f, m.p))),
       AfterTransient(s, x))
  }

  /** A successful start-up reports omega_s and n_s = 120 f / p, and its transient runs on a
      grid from 0 to t_final with zero load torque at every sample, each sample's torque on the
      torque-angle curve of the unloaded motor. */
  lemma StartupRuns(tr: Transcendentals, solve: IvpSolver, s: Snapshot, tFinal: real, ratio: real)
    requires tr.Valid() && Dynamic(s.params)
    requires StartupOutcome(tr, solve, s, tFinal, ratio).0.Ok?
    ensures var r := StartupOutcome(tr, solve, s, tFinal, ratio).0.value;
      && r.omegaS == SynchronousSpeedRadps(tr, s.params.f, s.params.p)
      && r.nS == 120.0 * s.params.f / s.params.p
      && (r.transient.Some? ==>
            && r.transient.value.time[0] == 0.0 && r.transient.value.time[SampleCount - 1] == tFinal
            && forall k :: 0 <= k < SampleCount ==>
                 r.transient.value.tLoad[k] == 0.0 && SampleHolds(tr, s.params.(TLoad := 0.0), r.transient.value, k))
  {
    var m := s.params;
    var x := StartupResponse(tr, solve, m, tFinal, ratio);
    if x.value.Some? {
      assert Dynamic(m.(TLoad := 0.0));
      ResponseSamples(tr, solve, m.(TLoad := 0.0), 0.0, tFinal, InitialSpeed(tr, m, ratio), 0.0);
    }
  }

  // ---------------------------------------------------------------- load_increase_gradual

  /** The load ratio of segment k: k max_load_ratio / load_steps. */
  function LoadRatio(k: nat, steps: nat, maxRatio: real): real
    requires steps > 0
  {
    (k as real) * maxRatio / (steps as real)
  }

  /** The schedule starts unloaded and reaches max_load_ratio at segment load_steps, the last. */
  lemma LoadScheduleEnds(steps: nat, maxRatio: real)
    requires steps > 0
    ensures LoadRatio(0, steps, maxRatio) == 0.0
    ensures LoadRatio(steps, steps, maxRatio) == maxRatio
  {
  }

  /** The load torque at a ratio of the nominal one. */
  function LoadAt(tNominal: real, ratio: real): real {
    tNominal * ratio
  }

  /** The duration of every segment. */
  function Duration(tFinal: real, steps: nat): real
    requires steps > 0
  {
    tFinal / (steps as real)
  }

  /** current_time before segment k: the durations of the earlier segments added one by one. */
  function StartTime(tFinal: real, steps: nat, k: nat): real
    requires steps > 0
  {
    if k == 0 then 0.0 else StartTime(tFinal, steps, k - 1) + Duration(tFinal, steps)
  }

  /** The running start time is k segment durations. */
  lemma {:induction false} StartTimeIsMultiple(tFinal: real, steps: nat, k: nat)
    requires steps > 0
    ensures StartTime(tFinal, steps, k) == (k as real) * Duration(tFinal, steps)
  {
    if k > 0 {
      StartTimeIsMultiple(tFinal, steps, k - 1);
    }
  }

  /** The load_steps + 1 segments end at t_final plus one duration: the schedule runs one
      segment past t_final. */
  lemma ScheduleOvershoots(tFinal: real, steps: nat)
    requires steps > 0
    ensures StartTime(tFinal, steps, steps + 1) == tFinal + Duration(tFinal, steps)
  {
    StartTimeIsMultiple(tFinal, steps, steps + 1);
    Arrays.Cancel(tFinal, steps as real);
    assert (steps as real) * Duration(tFinal, steps) == tFinal;
  }

  /** The parameters segment k runs with: the load is T_nominal times its ratio. */
  function SegmentParameters(m: Parameters, steps: nat, maxRatio: real, k: nat): Parameters
    requires steps > 0
  {
    m.(TLoad := LoadAt(m.TLoad, LoadRatio(k, steps, maxRatio)))
  }

  /** The initial (omega_m, delta) of segment k: synchronous speed at 0.1 rad for the first,
      the last sample of the previous segment otherwise (KeyError when it has none). */
  function SegmentStart(tr: Transcendentals, m: Parameters, k: nat, prev: Option<StepRun>): Result<(real, real)>
    requires tr.Valid() && m.p != 0.0
    requires prev.Some? && prev.value.transient.Some? ==> prev.value.transient.value.Sized()
  {
    if k == 0 || prev.None? then Ok((SynchronousSpeedRadps(tr, m.f, m.p), 0.1))
    else if prev.value.transient.None? then Err(MissingKey)
    else
      var x := prev.value.transient.value;
      Ok((x.omegaM[SampleCount - 1], x.delta[SampleCount - 1]))
  }

  /** Segment k of the scenario on base parameters m, after segment prev, starting at t. */
  function LoadSegment(tr: Transcendentals, solve: IvpSolver, m: Parameters, steps: nat, maxRatio: real,
                       tFinal: real, k: nat, prev: Option<StepRun>, t: real): (r: Result<StepRun>)
    requires tr.Valid() && Dynamic(m) && steps > 0
    requires prev.Some? && prev.value.transient.Some? ==> prev.value.transient.value.Sized()
    ensures r.Ok? ==> r.value.loadRatio == LoadRatio(k, steps, maxRatio)
    ensures r.Ok? ==> r.value.tLoadStep == SegmentParameters(m, steps, maxRatio, k).TLoad
    ensures r.Ok? && r.value.transient.Some? ==> r.value.transient.value.Sized()
  {
    var mk := SegmentParameters(m, steps, maxRatio, k);
    var initial :- SegmentStart(tr, mk, k, prev);
    var x :- TransientResponse(tr, solve, mk, t, t + Duration(tFinal, steps), initial.0, initial.1);
    Ok(StepRun(x, LoadRatio(k, steps, maxRatio), mk.TLoad))
  }

  /** How far a loop of runs got: the runs completed, and the error that stopped the next one. */
  datatype Progress<T> = Progress(done: seq<T>, failure: Option<Error>)

  /** A loop over steps that each yield a value or raise, stopped by the first that raises:
      the values of the steps before it, and its error. */
  function Run<T>(outcomes: seq<Result<T>>, n: nat): (r: Progress<T>)
    requires n <= |outcomes|
    ensures |r.done| <= n && (r.failure.None? <==> |r.done| == n)
    ensures forall k :: 0 <= k < |r.done| ==> outcomes[k] == Ok(r.done[k])
    ensures r.failure.Some? ==> outcomes[|r.done|] == Err(r.failure.value)
  {
    if n == 0 then Progress([], None)
    else
      var before := Run(outcomes, n - 1);
      if before.failure.Some? then before
      else
        match outcomes[n - 1]
        case Err(e) => Progress(before.done, Some(e))
        case Ok(x) => Progress(before.done + [x], None)
  }

  /** One more step of a loop that has not stopped. */
  lemma RunNext<T>(outcomes: seq<Result<T>>, n: nat)
    requires n < |outcomes| && Run(outcomes, n).failure.None?
    ensures Run(outcomes, n + 1) ==
      match outcomes[n]
      case Err(e) => Progress(Run(outcomes, n).done, Some(e))
      case Ok(x) => Progress(Run(outcomes, n).done + [x], None)
  {
  }

  /** A loop that has stopped runs no further step. */
  lemma {:induction false} RunStays<T>(outcomes: seq<Result<T>>, k: nat, n: nat)
    requires k <= n <= |outcomes| && Run(outcomes, k).failure.Some?
    ensures Run(outcomes, n) == Run(outcomes, k)
  {
    if n > k {
      RunStays(outcomes, k, n - 1);
    }
  }

  /** The segment run before segment k, if any. */
  function Previous(runs: seq<StepRun>, k: nat): Option<StepRun>
    requires k <= |runs|
  {
    if k == 0 then None else Some(runs[k - 1])
  }

  /** Each segment of runs is segment k run after the one before it. */
  ghost predicate Chained(tr: Transcendentals, solve: IvpSolver, m: Parameters, steps: nat, maxRatio: real,
                          tFinal: real, runs: seq<StepRun>, k: nat)
    requires tr.Valid() && Dynamic(m) && steps > 0 && k < |runs|
    requires forall j :: 0 <= j < |runs| && runs[j].transient.Some? ==> runs[j].transient.value.Sized()
  {
    Ok(runs[k]) == LoadSegment(tr, solve, m, steps, maxRatio, tFinal, k, Previous(runs, k), StartTime(tFinal, steps, k))
  }

  /** Appending the segment that follows a chain keeps it a chain. */
  lemma ChainedExtends(tr: Transcendentals, solve: IvpSolver, m: Parameters, steps: nat, maxRatio: real,
                       tFinal: real, runs: seq<StepRun>, run: StepRun)
    requires tr.Valid() && Dynamic(m) && steps > 0
    requires forall j :: 0 <= j < |runs| && runs[j].transient.Some? ==> runs[j].transient.value.Sized()
    requires forall k :: 0 <= k < |runs| ==> Chained(tr, solve, m, steps, maxRatio, tFinal, runs, k)
    requires Ok(run) == LoadSegment(tr, solve, m, steps, maxRatio, tFinal, |runs|, Previous(runs, |runs|), StartTime(tFinal, steps, |runs|))
    ensures forall j :: 0 <= j < |runs + [run]| && (runs + [run])[j].transient.Some? ==> (runs + [run])[j].transient.value.Sized()
    ensures forall k :: 0 <= k < |runs + [run]| ==> Chained(tr, solve, m, steps, maxRatio, tFinal, runs + [run], k)
  {
    var done := runs + [run];
    forall k | 0 <= k < |done|
      ensures Chained(tr, solve, m, steps, maxRatio, tFinal, done, k)
    {
      assert Previous(done, k) == Previous(runs, k);
      if k < |runs| {
        assert Chained(tr, solve, m, steps, maxRatio, tFinal, runs, k);
      }
    }
  }

  /** The loop over the first n segments on base parameters m. */
  function LoadSegments(tr: Transcendentals, solve: IvpSolver, m: Parameters, steps: nat, maxRatio: real,
                        tFinal: real, n: nat): (r: Progress<StepRun>)
    requires tr.Valid() && Dynamic(m) && steps > 0
    ensures |r.done| <= n && (r.failure.None? <==> |r.done| == n)
    ensures forall k :: 0 <= k < |r.done| && r.done[k].transient.Some? ==> r.done[k].transient.value.Sized()
    ensures forall k :: 0 <= k < |r.done| ==> Chained(tr, solve, m, steps, maxRatio, tFinal, r.done, k)
  {
    if n == 0 then Progress([], None)
    else
      var before := LoadSegments(tr, solve, m, steps, maxRatio, tFinal, n - 1);
      if before.failure.Some? then before
      else
        var k := |before.done|;
        match LoadSegment(tr, solve, m, steps, maxRatio, tFinal, k, Previous(before.done, k), StartTime(tFinal, steps, k))
        case Err(e) => Progress(before.done, Some(e))
        case Ok(run) =>
          ChainedExtends(tr, solve, m, steps, maxRatio, tFinal, before.done, run);
          Progress(before.done + [run], None)
  }

  /** Once segment k raises, the later segments do not run. */
  lemma LoadSegmentsStop(tr: Transcendentals, solve: IvpSolver, m: Parameters, steps: nat, maxRatio: real,
                         tFinal: real, k: nat, n: nat, e: Error)
    requires tr.Valid() && Dynamic(m) && steps > 0 && k < n
    requires LoadSegments(tr, solve, m, steps, maxRatio, tFinal, k).failure.None?
    requires LoadSegment(tr, solve, m, steps, maxRatio, tFinal, k, Previous(LoadSegments(tr, solve, m, steps, maxRatio, tFinal, k).done, k),
                         StartTime(tFinal, steps, k)) == Err(e)
    ensures LoadSegments(tr, solve, m, steps, maxRatio, tFinal, n) ==
      Progress(LoadSegments(tr, solve, m, steps, maxRatio, tFinal, k).done, Some(e))
  {
    LoadSegmentsFail(tr, solve, m, steps, maxRatio, tFinal, k, e);
    LoadSegmentsStay(tr, solve, m, steps, maxRatio, tFinal, k + 1, n);
  }

  /** The segment that raises ends the loop with its error. */
  lemma LoadSegmentsFail(tr: Transcendentals, solve: IvpSolver, m: Parameters, steps: nat, maxRatio: real,
                         tFinal: real, k: nat, e: Error)
    requires tr.Valid() && Dynamic(m) && steps > 0
    requires LoadSegments(tr, solve, m, steps, maxRatio, tFinal, k).failure.None?
    requires LoadSegment(tr, solve, m, steps, maxRatio, tFinal, k, Previous(LoadSegments(tr, solve, m, steps, maxRatio, tFinal, k).done, k),
                         StartTime(tFinal, steps, k)) == Err(e)
    ensures LoadSegments(tr, solve, m, steps, maxRatio, tFinal, k + 1) ==
      Progress(LoadSegments(tr, solve, m, steps, maxRatio, tFinal, k).done, Some(e))
  {
  }

  /** A loop that has stopped runs no further segment. */
  lemma {:induction false} LoadSegmentsStay(tr: Transcendentals, solve: IvpSolver, m: Parameters, steps: nat, maxRatio: real,
                                            tFinal: real, k: nat, n: nat)
    requires tr.Valid() && Dynamic(m) && steps > 0 && k <= n
    requires LoadSegments(tr, solve, m, steps, maxRatio, tFinal, k).failure.Some?
    ensures LoadSegments(tr, solve, m, steps, maxRatio, tFinal, n) == LoadSegments(tr, solve, m, steps, maxRatio, tFinal, k)
  {
    if n > k {
      LoadSegmentsStay(tr, solve, m, steps, maxRatio, tFinal, k, n - 1);
    }
  }

  /** The record after the completed segments: each set its load and left its last sample. */
  function ReplaySegments(s: Snapshot, runs: seq<StepRun>): (r: Snapshot)
    requires forall k :: 0 <= k < |runs| && runs[k].transient.Some? ==> runs[k].transient.value.Sized()
    ensures r.params == if runs == [] then s.params else s.params.(TLoad := runs[|runs| - 1].tLoadStep)
  {
    if runs == [] then s
    else
      var last := runs[|runs| - 1];
      var before := ReplaySegments(s, runs[..|runs| - 1]);
      AfterTransient(before.(params := before.params.(TLoad := last.tLoadStep)), last.transient)
  }

  /** The description of the load-increase scenario. */
  function LoadDescription(text: FloatText, steps: int, maxRatio: real): string {
    "Aumento gradual de carga en " + IntText(steps) + " pasos hasta " + text(maxRatio) + "x carga nominal"
  }

  /** The record the segment loop leaves: the completed segments replayed, and the load of the
      segment that raised, if one did. */
  function LoadExit(s: Snapshot, steps: nat, maxRatio: real, p: Progress<StepRun>): Snapshot
    requires steps > 0
    requires forall k :: 0 <= k < |p.done| && p.done[k].transient.Some? ==> p.done[k].transient.value.Sized()
  {
    var record := ReplaySegments(s, p.done);
    if p.failure.Some? then record.(params := SegmentParameters(s.params, steps, maxRatio, |p.done|)) else record
  }

  /** scenario_load_increase_gradual: load_steps + 1 segments (none for a negative count, and
      ZeroDivisionError for zero), combined, with the nominal load restored on success; a
      segment that raises leaves its load in the record. */
  function LoadIncreaseOutcome(tr: Transcendentals, solve: IvpSolver, text: FloatText, s: Snapshot,
                               tFinal: real, steps: int, maxRatio: real): (r: (Result<ScenarioResult>, Snapshot))
    requires tr.Valid() && Dynamic(s.params)
    ensures steps == 0 ==> r == (Err(DivisionByZero), s)
    ensures r.0.Ok? ==> r.0.value.LoadIncreaseResult? && r.1.params == s.params
  {
    if steps == 0 then (Err(DivisionByZero), s)
    else
      var p := if steps < 0 then Progress([], None) else LoadSegments(tr, solve, s.params, steps, maxRatio, tFinal, steps + 1);
      var record := if steps < 0 then s else LoadExit(s, steps, maxRatio, p);
      if p.failure.Some? then (Err(p.failure.value), record)
      else
        match CombineStepResults(p.done)
        case Err(e) => (Err(e), record)
        case Ok(c) =>
          (Ok(LoadIncreaseResult(c, LoadDescription(text, steps, maxRatio), tFinal, steps, maxRatio)),
           record.(params := s.params))
  }

  /** Segment k of the loop is loaded with ratio k, integrated over [t_k, t_k + d] (t_k = k d by
      StartTimeIsMultiple), from synchronous speed at 0.1 rad when k = 0 and from the last
      sample of segment k - 1 otherwise. */
  lemma LoadSegmentsChain(tr: Transcendentals, solve: IvpSolver, m: Parameters, steps: nat, maxRatio: real,
                          tFinal: real, n: nat, k: nat)
    requires tr.Valid() && Dynamic(m) && steps > 0
    requires k < |LoadSegments(tr, solve, m, steps, maxRatio, tFinal, n).done|
    ensures var runs := LoadSegments(tr, solve, m, steps, maxRatio, tFinal, n).done;
      var t := StartTime(tFinal, steps, k);
      var d := Duration(tFinal, steps);
      var mk := SegmentParameters(m, steps, maxRatio, k);
      && runs[k].loadRatio == LoadRatio(k, steps, maxRatio)
      && runs[k].tLoadStep == LoadAt(m.TLoad, LoadRatio(k, steps, maxRatio))
      && (k == 0 ==> Ok(runs[k].transient) == TransientResponse(tr, solve, mk, t, t + d, SynchronousSpeedRadps(tr, m.f, m.p), 0.1))
      && (k > 0 ==>
            && runs[k - 1].transient.Some? && runs[k - 1].transient.value.Sized()
            && Ok(runs[k].transient) == TransientResponse(tr, solve, mk, t, t + d,
                 runs[k - 1].transient.value.omegaM[SampleCount - 1], runs[k - 1].transient.value.delta[SampleCount - 1]))
  {
    var runs := LoadSegments(tr, solve, m, steps, maxRatio, tFinal, n).done;
    assert Chained(tr, solve, m, steps, maxRatio, tFinal, runs, k);
  }

  // ---------------------------------------------------------------- excitation change

  /** The steady state with the excitation set to x. */
  function SteadyAt(tr: Transcendentals, m: Parameters, x: real): (r: SteadyState)
    requires tr.Valid() && Nondegenerate(m) && ValidConnection(m.connection)
    ensures r.powers.Consistent()
    ensures r.If == x
  {
    SteadyStatePowers(tr, m.(If := x));
    SteadyStateAnalysis(tr, m.(If := x)).value
  }

  /** The first index of j's group of ten: the sample If_profile[::10] takes for index j. */
  function GroupStart(j: nat): (r: nat)
    ensures r <= j
  {
    j - j % 10
  }

  /** The excitation profile sampled every 10 points, each steady state repeated 10 times and
      the lists cut to the profile's length: entry j holds the steady state at the first sample
      of j's group of ten. */
  function SteadyProfile(tr: Transcendentals, m: Parameters, ifs: seq<real>): (r: seq<SteadyState>)
    requires tr.Valid() && Nondegenerate(m) && ValidConnection(m.connection)
    ensures |r| == |ifs|
    ensures forall j :: 0 <= j < |ifs| ==> r[j] == SteadyAt(tr, m, ifs[GroupStart(j)])
  {
    seq(|ifs|, j requires 0 <= j < |ifs| => SteadyAt(tr, m, ifs[GroupStart(j)]))
  }

  /** The pf, P and Q lists of the steady states. */
  function PowerFactors(st: seq<SteadyState>): (r: seq<real>)
    ensures |r| == |st| && forall j :: 0 <= j < |st| ==> r[j] == st[j].powers.pf
  {
    seq(|st|, j requires 0 <= j < |st| => st[j].powers.pf)
  }

  function ActivePowers(st: seq<SteadyState>): (r: seq<real>)
    ensures |r| == |st| && forall j :: 0 <= j < |st| ==> r[j] == st[j].powers.P
  {
    seq(|st|, j requires 0 <= j < |st| => st[j].powers.P)
  }

  function ReactivePowers(st: seq<SteadyState>): (r: seq<real>)
    ensures |r| == |st| && forall j :: 0 <= j < |st| ==> r[j] == st[j].powers.Q
  {
    seq(|st|, j requires 0 <= j < |st| => st[j].powers.Q)
  }

  /** _excitation_change_scenario: set the excitation to If_initial, integrate over
      [0, t_final] from synchronous speed at 0.2 rad, build the excitation profile over the
      result's time grid and the steady-state pf, P and Q along it, then restore the
      excitation. A failed integration has no 'time' entry: KeyError, with If_initial left in
      the record. */
  function ExcitationOutcome(tr: Transcendentals, solve: IvpSolver, s: Snapshot, tFinal: real, ifInitial: real, ifFinal: real,
                             direction: string, description: string): (r: (Result<ScenarioResult>, Snapshot))
    requires tr.Valid() && Dynamic(s.params) && tFinal != 0.0
    ensures r.0.Ok? ==> r.0.value.ExcitationResult? && r.0.value.direction == direction && r.1.params == s.params
    ensures r.0.Err? ==> r.1 == s.(params := s.params.(If := ifInitial))
  {
    var m := s.params.(If := ifInitial);
    match TransientResponse(tr, solve, m, 0.0, tFinal, SynchronousSpeedRadps(tr, m.f, m.p), 0.2)
    case Err(e) => (Err(e), s.(params := m))
    case Ok(None) => (Err(MissingKey), s.(params := m))
    case Ok(Some(x)) =>
      var ifs := ExcitationProfileOf(x.time, ifInitial, ifFinal, tFinal);
      var steady := SteadyProfile(tr, m, ifs);
      (Ok(ExcitationResult(x, ifs, PowerFactors(steady), ActivePowers(steady), ReactivePowers(steady),
                           direction, description, tFinal, ifInitial, ifFinal)),
       AfterTransient(s, Some(x)))
  }

  /** On success the excitation profile runs from If_initial to If_final over the 1000 samples,
      every pf of the profile lies in [0, 1], and entry j of the pf profile is the steady state
      at the excitation of the first sample of j's group of ten. */
  lemma ExcitationProfiles(tr: Transcendentals, solve: IvpSolver, s: Snapshot, tFinal: real, ifInitial: real, ifFinal: real,
                           direction: string, description: string)
    requires tr.Valid() && Dynamic(s.params) && tFinal != 0.0
    requires ExcitationOutcome(tr, solve, s, tFinal, ifInitial, ifFinal, direction, description).0.Ok?
    ensures var e := ExcitationOutcome(tr, solve, s, tFinal, ifInitial, ifFinal, direction, description).0.value;
      && |e.ifProfile| == |e.pfProfile| == |e.pProfile| == |e.qProfile| == SampleCount
      && e.ifProfile[0] == ifInitial && e.ifProfile[SampleCount - 1] == ifFinal
      && (forall j :: 0 <= j < SampleCount ==> 0.0 <= e.pfProfile[j] <= 1.0)
      && (forall j :: 0 <= j < SampleCount ==>
            e.pfProfile[j] == SteadyStateAnalysis(tr, s.params.(If := e.ifProfile[GroupStart(j)])).value.powers.pf)
  {
    var m := s.params.(If := ifInitial);
    var sol := solve(m, 0.0, tFinal, SynchronousSpeedRadps(tr, m.f, m.p), 0.2).value;
    var x := Sampled(tr, m, sol, 0.0, tFinal);
    assert x.time == Arrays.Linspace(0.0, tFinal, SampleCount);
    ExcitationProfileEnds(ifInitial, ifFinal, tFinal);
    var e := ExcitationOutcome(tr, solve, s, tFinal, ifInitial, ifFinal, direction, description).0.value;
    forall j | 0 <= j < SampleCount
      ensures 0.0 <= e.pfProfile[j] <= 1.0
      ensures e.pfProfile[j] == SteadyStateAnalysis(tr, s.params.(If := e.ifProfile[GroupStart(j)])).value.powers.pf
    {
      assert m.(If := e.ifProfile[GroupStart(j)]) == s.params.(If := e.ifProfile[GroupStart(j)]);
    }
  }

  // ---------------------------------------------------------------- overload test

  /** One trial on base parameters m: load T_nominal times the ratio, integrate over
      [0, t_final] from synchronous speed at 0.3 rad and judge stability; a failed
      integration has no series: KeyError. */
  function OverloadStep(tr: Transcendentals, solve: IvpSolver, m: Parameters, ratio: real, tFinal: real)
    : (r: Result<OverloadTrial>)
    requires tr.Valid() && Dynamic(m)
    ensures r.Ok? ==> r.value.transient.Sized() && r.value.ratio == ratio
  {
    var mk := m.(TLoad := LoadAt(m.TLoad, ratio));
    OverloadTrialOf(tr, mk, ratio, TransientResponse(tr, solve, mk, 0.0, tFinal, SynchronousSpeedRadps(tr, m.f, m.p), 0.3))
  }

  /** The trial made of one integration's outcome: KeyError when it has no series, otherwise
      the series and its stability verdict. */
  function OverloadTrialOf(tr: Transcendentals, mk: Parameters, ratio: real, sim: Result<Option<Transient>>)
    : (r: Result<OverloadTrial>)
    requires tr.Valid() && mk.p != 0.0
    requires sim.Ok? && sim.value.Some? ==> sim.value.value.Sized()
    ensures r.Ok? ==> r.value.transient.Sized() && r.value.ratio == ratio
  {
    match sim
    case Err(e) => Err(e)
    case Ok(None) => Err(MissingKey)
    case Ok(Some(x)) => Ok(OverloadTrial(x, ratio, CheckStability(tr, mk, x)))
  }

  /** OverloadStep as the trial made of its integration's outcome. */
  lemma OverloadStepOutcome(tr: Transcendentals, solve: IvpSolver, m: Parameters, ratio: real, tFinal: real,
                            sim: Result<Option<Transient>>)
    requires tr.Valid() && Dynamic(m)
    requires sim == TransientResponse(tr, solve, m.(TLoad := LoadAt(m.TLoad, ratio)), 0.0, tFinal, SynchronousSpeedRadps(tr, m.f, m.p), 0.3)
    ensures OverloadStep(tr, solve, m, ratio, tFinal) == OverloadTrialOf(tr, m.(TLoad := LoadAt(m.TLoad, ratio)), ratio, sim)
  {
  }

  /** The outcome of the trial at every ratio, on base parameters m. */
  function OverloadTrials(tr: Transcendentals, solve: IvpSolver, m: Parameters, ratios: seq<real>, tFinal: real)
    : (r: seq<Result<OverloadTrial>>)
    requires tr.Valid() && Dynamic(m)
    ensures |r| == |ratios|
  {
    seq(|ratios|, k requires 0 <= k < |ratios| => OverloadStep(tr, solve, m, ratios[k], tFinal))
  }

  /** The trials a test completes carry their ratios and full series. */
  lemma TrialsSized(tr: Transcendentals, solve: IvpSolver, m: Parameters, ratios: seq<real>, tFinal: real, n: nat)
    requires tr.Valid() && Dynamic(m) && n <= |ratios|
    ensures var done := Run(OverloadTrials(tr, solve, m, ratios, tFinal), n).done;
      forall k :: 0 <= k < |done| ==> done[k].transient.Sized() && done[k].ratio == ratios[k]
  {
    var outcomes := OverloadTrials(tr, solve, m, ratios, tFinal);
    var done := Run(outcomes, n).done;
    forall k | 0 <= k < |done|
      ensures done[k].transient.Sized() && done[k].ratio == ratios[k]
    {
      assert outcomes[k] == OverloadStep(tr, solve, m, ratios[k], tFinal);
    }
  }

  /** The record after the completed trials: each set its load and left its last sample. */
  function ReplayTrials(s: Snapshot, tNominal: real, trials: seq<OverloadTrial>): (r: Snapshot)
    requires forall k :: 0 <= k < |trials| ==> trials[k].transient.Sized()
    ensures r.params == if trials == [] then s.params else s.params.(TLoad := LoadAt(tNominal, trials[|trials| - 1].ratio))
  {
    if trials == [] then s
    else
      var last := trials[|trials| - 1];
      var before := ReplayTrials(s, tNominal, trials[..|trials| - 1]);
      AfterTransient(before.(params := before.params.(TLoad := LoadAt(tNominal, last.ratio))), Some(last.transient))
  }

  /** str() of a list of floats. */
  function ListText(text: FloatText, xs: seq<real>): string {
    "[" + Joined(text, xs) + "]"
  }

  function Joined(text: FloatText, xs: seq<real>): string {
    if xs == [] then ""
    else if |xs| == 1 then text(xs[0])
    else Joined(text, xs[..|xs| - 1]) + ", " + text(xs[|xs| - 1])
  }

  /** The record the trial loop leaves: the completed trials replayed, and the load of the
      trial that raised, if one did. */
  function OverloadExit(s: Snapshot, ratios: seq<real>, p: Progress<OverloadTrial>): Snapshot
    requires forall k :: 0 <= k < |p.done| ==> p.done[k].transient.Sized()
    requires p.failure.Some? ==> |p.done| < |ratios|
  {
    var record := ReplayTrials(s, s.params.TLoad, p.done);
    if p.failure.Some? then record.(params := s.params.(TLoad := LoadAt(s.params.TLoad, ratios[|p.done|]))) else record
  }

  /** scenario_overload_test: one trial per ratio, combined, with the nominal load restored on
      success; a trial that raises leaves its load in the record. */
  function OverloadOutcome(tr: Transcendentals, solve: IvpSolver, text: FloatText, s: Snapshot, ratios: seq<real>, tFinal: real)
    : (r: (Result<ScenarioResult>, Snapshot))
    requires tr.Valid() && Dynamic(s.params)
    ensures r.0.Ok? ==> r.0.value.OverloadResult? && r.1.params == s.params
  {
    var p := Run(OverloadTrials(tr, solve, s.params, ratios, tFinal), |ratios|);
    TrialsSized(tr, solve, s.params, ratios, tFinal, |ratios|);
    var record := OverloadExit(s, ratios, p);
    if p.failure.Some? then (Err(p.failure.value), record)
    else
      (Ok(OverloadResult(CombineOverloadResults(tr, s.params, p.done),
                         "Prueba de sobrecarga con ratios: " + ListText(text, ratios), ratios, tFinal)),
       record.(params := s.params))
  }

  /** In a completed test, trial k is the integration of the motor loaded with ratio k from
      synchronous speed at 0.3 rad, and its flag is the stability criterion (CheckStability)
      on it. */
  lemma OverloadTrialsChain(tr: Transcendentals, solve: IvpSolver, m: Parameters, ratios: seq<real>, tFinal: real, k: nat)
    requires tr.Valid() && Dynamic(m)
    requires k < |Run(OverloadTrials(tr, solve, m, ratios, tFinal), |ratios|).done|
    ensures Run(OverloadTrials(tr, solve, m, ratios, tFinal), |ratios|).done[k].ratio == ratios[k]
    ensures Ok(Some(Run(OverloadTrials(tr, solve, m, ratios, tFinal), |ratios|).done[k].transient)) ==
      TransientResponse(tr, solve, m.(TLoad := LoadAt(m.TLoad, ratios[k])), 0.0, tFinal, SynchronousSpeedRadps(tr, m.f, m.p), 0.3)
    ensures var t := Run(OverloadTrials(tr, solve, m, ratios, tFinal), |ratios|).done[k];
      t.stable == CheckStability(tr, m.(TLoad := LoadAt(m.TLoad, ratios[k])), t.transient)
  {
    var outcomes := OverloadTrials(tr, solve, m, ratios, tFinal);
    var t := Run(outcomes, |ratios|).done[k];
    var mk := m.(TLoad := LoadAt(m.TLoad, ratios[k]));
    assert outcomes[k] == Ok(t);
    assert outcomes[k] == OverloadStep(tr, solve, m, ratios[k], tFinal);
    OverloadStepOutcome(tr, solve, m, ratios[k], tFinal,
                        TransientResponse(tr, solve, mk, 0.0, tFinal, SynchronousSpeedRadps(tr, m.f, m.p), 0.3));
  }

  // ---------------------------------------------------------------- dispatch

  /** The result of a dispatch entry run with its default arguments. */
  function DefaultOutcome(tr: Transcendentals, solve: IvpSolver, text: FloatText, s: Snapshot, e: Entry)
    : (r: (Result<ScenarioResult>, Snapshot))
    requires tr.Valid() && Dynamic(s.params)
    ensures e.ExcitationSubToOver? || e.ExcitationOverToSub? ==> r == ExcitationDefault(tr, solve, s, e.ExcitationSubToOver?)
  {
    match e
    case StartupIdeal => StartupOutcome(tr, solve, s, 3.0, 0.0)
    case LoadIncreaseGradual => LoadIncreaseOutcome(tr, solve, text, s, 8.0, 4, 1.2)
    case ExcitationSubToOver => ExcitationDefault(tr, solve, s, true)
    case ExcitationOverToSub => ExcitationDefault(tr, solve, s, false)
    case OverloadTest => OverloadOutcome(tr, solve, text, s, [1.1, 1.3, 1.5], 2.0)
    case FrequencyVariation => (Ok(PlaceholderResult("frequency_variation")), s)
    case VoltageSag => (Ok(PlaceholderResult("voltage_sag")), s)
  }

  /** The two excitation scenarios with their default arguments: from 0.5 A to 4.0 A
      (sub_to_over) or back, over 4 s. */
  function ExcitationDefault(tr: Transcendentals, solve: IvpSolver, s: Snapshot, up: bool): (r: (Result<ScenarioResult>, Snapshot))
    requires tr.Valid() && Dynamic(s.params)
    ensures r.0.Ok? ==> r.0.value.Name() == if up then ExcitationSubToOver.Name() else ExcitationOverToSub.Name()
  {
    if up then
      var r := ExcitationOutcome(tr, solve, s, 4.0, 0.5, 4.0, "sub_to_over", "Cambio de excitación: subexcitado → sobreexcitado");
      SubToOverName();
      r
    else
      var r := ExcitationOutcome(tr, solve, s, 4.0, 4.0, 0.5, "over_to_sub", "Cambio de excitación: sobreexcitado → subexcitado");
      OverToSubName();
      r
  }

  /** The excitation results' names, "excitation_" followed by the direction, are the entries'
      names. */
  lemma SubToOverName()
    ensures "excitation_" + "sub_to_over" == ExcitationSubToOver.Name()
  {
  }

  lemma OverToSubName()
    ensures "excitation_" + "over_to_sub" == ExcitationOverToSub.Name()
  {
  }

  /** A scenario run by its catalogue name reports that name. */
  lemma DefaultOutcomeName(tr: Transcendentals, solve: IvpSolver, text: FloatText, s: Snapshot, e: Entry)
    requires tr.Valid() && Dynamic(s.params)
    ensures DefaultOutcome(tr, solve, text, s, e).0.Ok? ==> DefaultOutcome(tr, solve, text, s, e).0.value.Name() == e.Name()
  {
    var r := DefaultOutcome(tr, solve, text, s, e).0;
    match e
    case StartupIdeal =>
      assert r == StartupOutcome(tr, solve, s, 3.0, 0.0).0;
    case LoadIncreaseGradual =>
      assert r == LoadIncreaseOutcome(tr, solve, text, s, 8.0, 4, 1.2).0;
    case ExcitationSubToOver =>
    case ExcitationOverToSub =>
    case OverloadTest =>
      OverloadName(tr, solve, text, s, [1.1, 1.3, 1.5], 2.0);
    case FrequencyVariation =>
    case VoltageSag =>
  }

  lemma OverloadName(tr: Transcendentals, solve: IvpSolver, text: FloatText, s: Snapshot, ratios: seq<real>, tFinal: real)
    requires tr.Valid() && Dynamic(s.params)
    ensures OverloadOutcome(tr, solve, text, s, ratios, tFinal).0.Ok? ==>
      OverloadOutcome(tr, solve, text, s, ratios, tFinal).0.value.Name() == OverloadTest.Name()
  {
    var r := OverloadOutcome(tr, solve, text, s, ratios, tFinal).0;
    if r.Ok? {
      OverloadResultName(r.value);
    }
  }

  /** Every overload result is named after the overload entry. */
  lemma OverloadResultName(r: ScenarioResult)
    requires r.OverloadResult?
    ensures r.Name() == OverloadTest.Name()
  {
  }

  /** SimulationScenarios: the scenarios over one motor record and an engine on the same
      record. */
  class SimulationScenarios {
    const motor: SynchronousMotor
    const engine: SimulationEngine

    constructor(motor: SynchronousMotor)
      ensures this.motor == motor && engine.motor == motor
    {
      this.motor := motor;
      this.engine := new SimulationEngine(motor);
    }

    /** run_scenario with default arguments: ValueError for a name outside the table;
        otherwise the scenario's result, whose 'name' is the name it was run by. */
    method RunScenario(tr: Transcendentals, solve: IvpSolver, text: FloatText, name: string)
      returns (r: Result<ScenarioResult>)
      requires tr.Valid() && Dynamic(motor.Params()) && engine.motor == motor
      modifies motor
      ensures Dispatch(name).None? ==> r == Err(UnknownScenario) && motor.State() == old(motor.State())
      ensures Dispatch(name).Some? ==> (r, motor.State()) == DefaultOutcome(tr, solve, text, old(motor.State()), Dispatch(name).value)
      ensures r.Ok? ==> r.value.Name() == name
    {
      ghost var s0 := motor.State();
      var entry := Dispatch(name);
      if entry.None? {
        return Err(UnknownScenario);
      }
      DefaultOutcomeName(tr, solve, text, s0, entry.value);
      match entry.value
      case StartupIdeal => r := ScenarioStartupIdeal(tr, solve, 3.0, 0.0);
      case LoadIncreaseGradual => r := ScenarioLoadIncreaseGradual(tr, solve, text, 8.0, 4, 1.2);
      case ExcitationSubToOver => r := ScenarioExcitationSubToOver(tr, solve, 4.0, 0.5, 4.0);
      case ExcitationOverToSub => r := ScenarioExcitationOverToSub(tr, solve, 4.0, 4.0, 0.5);
      case OverloadTest => r := ScenarioOverloadTest(tr, solve, text, [1.1, 1.3, 1.5], 2.0);
      case FrequencyVariation => r := Ok(PlaceholderResult("frequency_variation"));
      case VoltageSag => r := Ok(PlaceholderResult("voltage_sag"));
    }

    /** scenario_startup_ideal. */
    method ScenarioStartupIdeal(tr: Transcendentals, solve: IvpSolver, tFinal: real, initialOmegaRatio: real)
      returns (r: Result<ScenarioResult>)
      requires tr.Valid() && Dynamic(motor.Params()) && engine.motor == motor
      modifies motor
      ensures (r, motor.State()) == StartupOutcome(tr, solve, old(motor.State()), tFinal, initialOmegaRatio)
    {
      ghost var s0 := motor.State();
      ghost var m := s0.params;
      var omegaS := SynchronousSpeedRadps(tr, motor.f, motor.p);
      var original := motor.TLoad;
      motor.TLoad := 0.0;
      assert motor.State() == s0.(params := m.(TLoad := 0.0));
      var omega0 := initialOmegaRatio * omegaS;
      assert omega0 == InitialSpeed(tr, m, initialOmegaRatio);
      var sim := engine.SimulateTransientResponse(tr, solve, 0.0, tFinal, omega0, 0.0);
      assert sim == StartupResponse(tr, solve, m, tFinal, initialOmegaRatio);
      if sim.Err? {
        return Err(sim.error);
      }
      motor.TLoad := original;
      RestoredAfterTransient(s0, m.(TLoad := 0.0), sim.value);
      r := Ok(StartupResult(sim.value, tFinal, initialOmegaRatio, omegaS, SynchronousSpeedRpm(motor.f, motor.p)));
    }

    /** scenario_load_increase_gradual: the segment loop with its running start time, then the
        combination and the restore. */
    method ScenarioLoadIncreaseGradual(tr: Transcendentals, solve: IvpSolver, text: FloatText, tFinal: real,
                                       loadSteps: int, maxLoadRatio: real)
      returns (r: Result<ScenarioResult>)
      requires tr.Valid() && Dynamic(motor.Params()) && engine.motor == motor
      modifies motor
      ensures (r, motor.State()) == LoadIncreaseOutcome(tr, solve, text, old(motor.State()), tFinal, loadSteps, maxLoadRatio)
    {
      var tNominal := motor.TLoad;
      if loadSteps == 0 {
        return Err(DivisionByZero);
      }
      var runs: seq<StepRun> := [];
      if loadSteps > 0 {
        var failure;
        runs, failure := LoadIncreaseLoop(tr, solve, motor.State(), tNominal, loadSteps, maxLoadRatio, tFinal);
        if failure.Some? {
          return Err(failure.value);
        }
      }
      var combined := CombineStepResults(runs);
      if combined.Err? {
        return Err(combined.error);
      }
      ghost var after := motor.State();
      motor.TLoad := tNominal;
      assert motor.State() == after.(params := after.params.(TLoad := tNominal));
      r := Ok(LoadIncreaseResult(combined.value, LoadDescription(text, loadSteps, maxLoadRatio), tFinal, loadSteps, maxLoadRatio));
    }

    /** The segment loop of scenario_load_increase_gradual, with its running start time; it
        stops at the first segment that raises. */
    method LoadIncreaseLoop(tr: Transcendentals, solve: IvpSolver, ghost s0: Snapshot, tNominal: real, steps: nat,
                            maxRatio: real, tFinal: real)
      returns (runs: seq<StepRun>, failure: Option<Error>)
      requires tr.Valid() && Dynamic(s0.params) && engine.motor == motor && steps > 0
      requires motor.State() == s0 && tNominal == s0.params.TLoad
      modifies motor
      ensures LoadSegments(tr, solve, s0.params, steps, maxRatio, tFinal, steps + 1) == Progress(runs, failure)
      ensures motor.State() == LoadExit(s0, steps, maxRatio, Progress(runs, failure))
    {
      runs := [];
      var currentTime := 0.0;
      for step := 0 to steps + 1
        invariant LoadSegments(tr, solve, s0.params, steps, maxRatio, tFinal, step) == Progress(runs, None)
        invariant motor.State() == ReplaySegments(s0, runs)
        invariant currentTime == StartTime(tFinal, steps, step)
      {
        var run := LoadIncreaseStep(tr, solve, s0.params, tNominal, steps, maxRatio, tFinal, step, Previous(runs, step), currentTime);
        if run.Err? {
          LoadSegmentsStop(tr, solve, s0.params, steps, maxRatio, tFinal, step, steps + 1, run.error);
          return runs, Some(run.error);
        }
        ghost var before := runs;
        runs := runs + [run.value];
        assert before == runs[..|runs| - 1];
        currentTime := currentTime + tFinal / (steps as real);
      }
      failure := None;
    }

    /** One pass of the segment loop: set the load of segment k, pick its initial conditions and
        integrate over [t, t + d]. */
    method LoadIncreaseStep(tr: Transcendentals, solve: IvpSolver, ghost m: Parameters, tNominal: real, steps: nat, maxRatio: real,
                            tFinal: real, k: nat, prev: Option<StepRun>, currentTime: real)
      returns (r: Result<StepRun>)
      requires tr.Valid() && Dynamic(m) && engine.motor == motor && steps > 0 && tNominal == m.TLoad
      requires motor.Params() == m.(TLoad := motor.TLoad)
      requires prev.Some? && prev.value.transient.Some? ==> prev.value.transient.value.Sized()
      modifies motor
      ensures r == LoadSegment(tr, solve, m, steps, maxRatio, tFinal, k, prev, currentTime)
      ensures var loaded := old(motor.State()).(params := SegmentParameters(m, steps, maxRatio, k));
        motor.State() == if r.Ok? then AfterTransient(loaded, r.value.transient) else loaded
    {
      var ratio := (k as real) * maxRatio / (steps as real);
      motor.TLoad := LoadAt(tNominal, ratio);
      ghost var mk := motor.Params();
      assert mk == SegmentParameters(m, steps, maxRatio, k);
      var duration := tFinal / (steps as real);
      var omega0, delta0;
      if k == 0 || prev.None? {
        omega0, delta0 := SynchronousSpeedRadps(tr, motor.f, motor.p), 0.1;
      } else {
        var previous := prev.value.transient;
        if previous.None? {
          assert SegmentStart(tr, mk, k, prev) == Err(MissingKey);
          return Err(MissingKey);
        }
        omega0, delta0 := previous.value.omegaM[SampleCount - 1], previous.value.delta[SampleCount - 1];
      }
      assert SegmentStart(tr, mk, k, prev) == Ok((omega0, delta0));
      var sim := engine.SimulateTransientResponse(tr, solve, currentTime, currentTime + duration, omega0, delta0);
      if sim.Err? {
        return Err(sim.error);
      }
      r := Ok(StepRun(sim.value, ratio, motor.TLoad));
    }

    /** scenario_excitation_sub_to_over. */
    method ScenarioExcitationSubToOver(tr: Transcendentals, solve: IvpSolver, tFinal: real, ifInitial: real, ifFinal: real)
      returns (r: Result<ScenarioResult>)
      requires tr.Valid() && Dynamic(motor.Params()) && engine.motor == motor && tFinal != 0.0
      modifies motor
      ensures (r, motor.State()) == ExcitationOutcome(tr, solve, old(motor.State()), tFinal, ifInitial, ifFinal,
                                                       "sub_to_over", "Cambio de excitación: subexcitado → sobreexcitado")
    {
      r := ExcitationChangeScenario(tr, solve, tFinal, ifInitial, ifFinal, "sub_to_over",
                                    "Cambio de excitación: subexcitado → sobreexcitado");
    }

    /** scenario_excitation_over_to_sub. */
    method ScenarioExcitationOverToSub(tr: Transcendentals, solve: IvpSolver, tFinal: real, ifInitial: real, ifFinal: real)
      returns (r: Result<ScenarioResult>)
      requires tr.Valid() && Dynamic(motor.Params()) && engine.motor == motor && tFinal != 0.0
      modifies motor
      ensures (r, motor.State()) == ExcitationOutcome(tr, solve, old(motor.State()), tFinal, ifInitial, ifFinal,
                                                       "over_to_sub", "Cambio de excitación: sobreexcitado → subexcitado")
    {
      r := ExcitationChangeScenario(tr, solve, tFinal, ifInitial, ifFinal, "over_to_sub",
                                    "Cambio de excitación: sobreexcitado → subexcitado");
    }

    /** _excitation_change_scenario: the integration at If_initial, then the loop over every
        tenth profile sample, then the restore. */
    method ExcitationChangeScenario(tr: Transcendentals, solve: IvpSolver, tFinal: real, ifInitial: real, ifFinal: real,
                                    direction: string, description: string)
      returns (r: Result<ScenarioResult>)
      requires tr.Valid() && Dynamic(motor.Params()) && engine.motor == motor && tFinal != 0.0
      modifies motor
      ensures (r, motor.State()) == ExcitationOutcome(tr, solve, old(motor.State()), tFinal, ifInitial, ifFinal, direction, description)
    {
      var original := motor.If;
      motor.If := ifInitial;
      var sim := engine.SimulateTransientResponse(tr, solve, 0.0, tFinal, SynchronousSpeedRadps(tr, motor.f, motor.p), 0.2);
      if sim.Err? {
        return Err(sim.error);
      }
      if sim.value.None? {
        return Err(MissingKey);
      }
      var x := sim.value.value;
      var ifs := ExcitationProfileOf(x.time, ifInitial, ifFinal, tFinal);
      ghost var after := motor.State();
      var steady := SteadyProfileLoop(tr, ifs);
      motor.If := original;
      assert motor.State() == after.(params := after.params.(If := original));
      r := Ok(ExcitationResult(x, ifs, PowerFactors(steady), ActivePowers(steady), ReactivePowers(steady),
                               direction, description, tFinal, ifInitial, ifFinal));
    }

    /** The loop over If_profile[::10]: each tenth sample set as the excitation and analysed,
        its steady state repeated ten times; the lists are then cut to the profile's length.
        The excitation is left at the last sample visited. */
    method SteadyProfileLoop(tr: Transcendentals, ifs: seq<real>) returns (steady: seq<SteadyState>)
      requires tr.Valid() && Nondegenerate(motor.Params()) && ValidConnection(motor.connection)
      modifies motor
      ensures steady == SteadyProfile(tr, old(motor.Params()), ifs)
      ensures motor.State() == old(motor.State()).(params := old(motor.Params()).(If := motor.If))
      ensures |ifs| > 0 ==> motor.If == ifs[GroupStart(|ifs| - 1)]
    {
      var m := motor.Params();
      var all, i := SteadyGroups(tr, ifs, m, motor.State());
      CutProfile(tr, m, ifs, all);
      steady := all[..|ifs|];
      if |ifs| > 0 {
        LastGroup(i, |ifs|);
      }
    }

    /** The loop itself: whole groups of ten until the profile is covered; i is where it stops. */
    method SteadyGroups(tr: Transcendentals, ifs: seq<real>, m: Parameters, ghost s0: Snapshot)
      returns (all: seq<SteadyState>, i: nat)
      requires tr.Valid() && Nondegenerate(m) && ValidConnection(m.connection)
      requires motor.State() == s0 && motor.Params() == m
      modifies motor
      ensures i % 10 == 0 && |all| == i && |ifs| <= i <= |ifs| + 9
      ensures Grouped(tr, m, ifs, all)
      ensures motor.State() == s0.(params := m.(If := motor.If))
      ensures i > 0 ==> motor.If == ifs[i - 10]
    {
      all := [];
      i := 0;
      while i < |ifs|
        invariant i % 10 == 0 && |all| == i && i <= |ifs| + 9
        invariant Grouped(tr, m, ifs, all)
        invariant motor.State() == s0.(params := m.(If := motor.If))
        invariant i > 0 ==> motor.If == ifs[i - 10]
        decreases |ifs| - i
      {
        all := SteadyGroup(tr, ifs, i, all, m, s0);
        assert (i + 10) % 10 == 0;
        i := i + 10;
      }
    }

    /** One pass of the loop: the group of ten starting at i. */
    method SteadyGroup(tr: Transcendentals, ifs: seq<real>, i: nat, all: seq<SteadyState>, m: Parameters, ghost s0: Snapshot)
      returns (next: seq<SteadyState>)
      requires tr.Valid() && Nondegenerate(m) && ValidConnection(m.connection)
      requires i % 10 == 0 && |all| == i && i < |ifs| && Grouped(tr, m, ifs, all)
      requires motor.State() == s0.(params := m.(If := motor.If))
      modifies motor
      ensures |next| == i + 10 && Grouped(tr, m, ifs, next)
      ensures motor.State() == s0.(params := m.(If := ifs[i])) && motor.If == ifs[i]
    {
      var st := SteadyAtExcitation(tr, ifs[i], m);
      next := Extend(all, st, tr, m, ifs, i);
    }

    /** Set the excitation and analyse. */
    method SteadyAtExcitation(tr: Transcendentals, x: real, ghost m: Parameters) returns (st: SteadyState)
      requires tr.Valid() && Nondegenerate(m) && ValidConnection(m.connection)
      requires motor.Params() == m.(If := motor.If)
      modifies motor
      ensures st == SteadyAt(tr, m, x)
      ensures motor.State() == old(motor.State()).(params := m.(If := x))
    {
      motor.If := x;
      assert motor.Params() == m.(If := x);
      st := SteadyStateAnalysis(tr, motor.Params()).value;
    }

    /** scenario_overload_test: the trial loop, the combination and the restore. */
    method ScenarioOverloadTest(tr: Transcendentals, solve: IvpSolver, text: FloatText, overloadRatios: seq<real>, tFinal: real)
      returns (r: Result<ScenarioResult>)
      requires tr.Valid() && Dynamic(motor.Params()) && engine.motor == motor
      modifies motor
      ensures (r, motor.State()) == OverloadOutcome(tr, solve, text, old(motor.State()), overloadRatios, tFinal)
    {
      var tNominal := motor.TLoad;
      var m := motor.Params();
      var trials, failure := OverloadLoop(tr, solve, motor.State(), tNominal, overloadRatios, tFinal);
      if failure.Some? {
        return Err(failure.value);
      }
      var summary := CombineOverloadResults(tr, m, trials);
      ghost var after := motor.State();
      motor.TLoad := tNominal;
      assert motor.State() == after.(params := after.params.(TLoad := tNominal));
      r := Ok(OverloadResult(summary, "Prueba de sobrecarga con ratios: " + ListText(text, overloadRatios),
                             overloadRatios, tFinal));
    }

    /** The trial loop of scenario_overload_test; it stops at the first trial that raises. */
    method OverloadLoop(tr: Transcendentals, solve: IvpSolver, ghost s0: Snapshot, tNominal: real, ratios: seq<real>, tFinal: real)
      returns (trials: seq<OverloadTrial>, failure: Option<Error>)
      requires tr.Valid() && Dynamic(s0.params) && engine.motor == motor
      requires motor.State() == s0 && tNominal == s0.params.TLoad
      modifies motor
      ensures Run(OverloadTrials(tr, solve, s0.params, ratios, tFinal), |ratios|) == Progress(trials, failure)
      ensures forall k :: 0 <= k < |trials| ==> trials[k].transient.Sized()
      ensures motor.State() == OverloadExit(s0, ratios, Progress(trials, failure))
    {
      ghost var outcomes := OverloadTrials(tr, solve, s0.params, ratios, tFinal);
      trials := [];
      for i := 0 to |ratios|
        invariant Run(outcomes, i) == Progress(trials, None)
        invariant forall k :: 0 <= k < |trials| ==> trials[k].transient.Sized()
        invariant motor.State() == ReplayTrials(s0, tNominal, trials)
      {
        var trial := OverloadPass(tr, solve, s0, tNominal, ratios, tFinal, i, trials);
        if trial.Err? {
          RunStays(outcomes, i + 1, |ratios|);
          return trials, Some(trial.error);
        }
        trials := trials + [trial.value];
      }
      failure := None;
    }

    /** Pass i of the trial loop, after the trials before it. */
    method OverloadPass(tr: Transcendentals, solve: IvpSolver, ghost s0: Snapshot, tNominal: real, ratios: seq<real>, tFinal: real,
                        i: nat, ghost trials: seq<OverloadTrial>)
      returns (trial: Result<OverloadTrial>)
      requires tr.Valid() && Dynamic(s0.params) && engine.motor == motor && tNominal == s0.params.TLoad && i < |ratios|
      requires Run(OverloadTrials(tr, solve, s0.params, ratios, tFinal), i) == Progress(trials, None)
      requires forall k :: 0 <= k < |trials| ==> trials[k].transient.Sized()
      requires motor.State() == ReplayTrials(s0, tNominal, trials)
      modifies motor
      ensures trial.Ok? ==> trial.value.transient.Sized()
      ensures Run(OverloadTrials(tr, solve, s0.params, ratios, tFinal), i + 1) ==
        if trial.Ok? then Progress(trials + [trial.value], None) else Progress(trials, Some(trial.error))
      ensures motor.State() ==
        if trial.Ok? then ReplayTrials(s0, tNominal, trials + [trial.value]) else OverloadExit(s0, ratios, Progress(trials, Some(trial.error)))
    {
      ghost var outcomes := OverloadTrials(tr, solve, s0.params, ratios, tFinal);
      trial := OverloadTrialRun(tr, solve, s0.params, tNominal, ratios[i], tFinal);
      assert outcomes[i] == trial;
      RunNext(outcomes, i);
      if trial.Ok? {
        assert trials == (trials + [trial.value])[..|trials|];
      }
    }

    /** One pass of the trial loop. */
    method OverloadTrialRun(tr: Transcendentals, solve: IvpSolver, ghost m: Parameters, tNominal: real, ratio: real, tFinal: real)
      returns (r: Result<OverloadTrial>)
      requires tr.Valid() && Dynamic(m) && engine.motor == motor && tNominal == m.TLoad
      requires motor.Params() == m.(TLoad := motor.TLoad)
      modifies motor
      ensures r == OverloadStep(tr, solve, m, ratio, tFinal)
      ensures var loaded := old(motor.State()).(params := m.(TLoad := LoadAt(m.TLoad, ratio)));
        motor.State() == if r.Ok? then AfterTransient(loaded, Some(r.value.transient)) else loaded
    {
      motor.TLoad := LoadAt(tNominal, ratio);
      ghost var mk := m.(TLoad := LoadAt(m.TLoad, ratio));
      assert motor.Params() == mk;
      var omegaS := SynchronousSpeedRadps(tr, motor.f, motor.p);
      assert omegaS == SynchronousSpeedRadps(tr, m.f, m.p);
      var sim := engine.SimulateTransientResponse(tr, solve, 0.0, tFinal, omegaS, 0.3);
      assert sim == TransientResponse(tr, solve, mk, 0.0, tFinal, SynchronousSpeedRadps(tr, m.f, m.p), 0.3);
      OverloadStepOutcome(tr, solve, m, ratio, tFinal, sim);
      if sim.Err? {
        return Err(sim.error);
      }
      if sim.value.None? {
        return Err(MissingKey);
      }
      r := Ok(OverloadTrial(sim.value.value, ratio, CheckStability(tr, motor.Params(), sim.value.value)));
    }
  }

  /** Every entry of all is the steady state at the first sample of its group of ten. */
  ghost predicate Grouped(tr: Transcendentals, m: Parameters, ifs: seq<real>, all: seq<SteadyState>)
    requires tr.Valid() && Nondegenerate(m) && ValidConnection(m.connection)
  {
    forall j :: 0 <= j < |all| ==> GroupStart(j) < |ifs| && all[j] == SteadyAt(tr, m, ifs[GroupStart(j)])
  }

  /** Appending the next group of ten copies keeps every entry at the steady state of its
      group's first sample. */
  function Extend(all: seq<SteadyState>, st: SteadyState, tr: Transcendentals, m: Parameters, ifs: seq<real>, i: nat)
    : (r: seq<SteadyState>)
    requires tr.Valid() && Nondegenerate(m) && ValidConnection(m.connection)
    requires i % 10 == 0 && |all| == i && i < |ifs| && st == SteadyAt(tr, m, ifs[i])
    requires Grouped(tr, m, ifs, all)
    ensures |r| == i + 10
    ensures Grouped(tr, m, ifs, r)
  {
    var r := all + [st, st, st, st, st, st, st, st, st, st];
    assert forall j :: i <= j < i + 10 ==> GroupStart(j) == i by {
      forall j | i <= j < i + 10 ensures GroupStart(j) == i { SameGroup(i, j); }
    }
    r
  }

  /** Restoring the parameters after a transient run on changed parameters gives the record the
      run would have left on the original ones. */
  lemma RestoredAfterTransient(s: Snapshot, p: Parameters, x: Option<Transient>)
    requires x.Some? ==> x.value.Sized()
    ensures AfterTransient(s.(params := p), x).(params := s.params) == AfterTransient(s, x)
  {
  }

  /** The first |ifs| entries of a list that holds, at every index, the steady state of its
      group's first sample are the profile. */
  lemma CutProfile(tr: Transcendentals, m: Parameters, ifs: seq<real>, all: seq<SteadyState>)
    requires tr.Valid() && Nondegenerate(m) && ValidConnection(m.connection)
    requires |ifs| <= |all|
    requires Grouped(tr, m, ifs, all)
    ensures all[..|ifs|] == SteadyProfile(tr, m, ifs)
  {
  }

  /** j lies in the group of ten that starts at i. */
  lemma SameGroup(i: nat, j: nat)
    requires i % 10 == 0 && i <= j < i + 10
    ensures GroupStart(j) == i
  {
  }

  /** The loop over every tenth index ends at i, ten past the last group start below n. */
  lemma LastGroup(i: nat, n: nat)
    requires 0 < n && i % 10 == 0 && n <= i <= n + 9
    ensures i - 10 == GroupStart(n - 1)
  {
    SameGroup(i - 10, n - 1);
  }
}

# Synchronous motor simulator: a verified model

This project models, in Dafny, the computational core of a simulator of a three-phase
salient-pole synchronous motor (the `simulator/grok` package). It has four parts:

- `utils.py`: the unit helpers. These are angle normalisation, rpm and rad/s conversion,
  synchronous speed, phase voltage and line current for star and delta connections, the
  power-factor classification, and RMS and peak conversion.
- `motor_model.py`: the motor record, `SynchronousMotorModel`. It holds parameters and a
  state (load angle, speed, time). On it the model provides the phasor steady-state analysis
  (internal EMF, stator current, load angle, torque, powers), the torque-angle
  characteristic and its maximum, and the derivatives of the two-state dynamic model. It also
  provides the keyword-argument update and the power-factor-versus-excitation sweep, which
  overwrites the field current in place.
- `simulation_engine.py`: the `SimulationEngine` over the same record. It covers the
  steady-state solve that saves, overrides and restores attributes, and the post-processing
  of a transient integration that writes every sample's state into the record. It also
  covers the parameter sweep, the stability analysis (torque-angle curve, `np.gradient`,
  `np.argmax`) and the four engine scenarios behind `simulate_scenario`.
- `scenarios.py`: `SimulationScenarios`, which covers:
  - the catalogue of scenario names and descriptions, and the `run_scenario` dispatcher;
  - the start-up, gradual load increase, excitation change and overload scenarios, which
    change the load torque or the field current of the shared record, integrate through the
    engine and put back what they changed;
  - the functions that combine and judge their results.

Code that changes the record in place is modelled as classes. `MotorModel.SynchronousMotor`,
`Engine.SimulationEngine` and `Scenarios.SimulationScenarios` all share one motor object.
Every method that changes the record states the whole new record, as a function of the old
one (`State()`). Each loop of the source is a `while` or `for` loop with invariants. Each
one is proved against a specification function (`ExcitationCurve`, `Sweep`, `Torques`,
`LoadSegments`, `Run`/`OverloadTrials`, `SteadyProfile`, `LoadProfileValues`), and the
properties of those functions are proved as lemmas. Pure calculations are functions.

Exceptions the source raises become `Err` values of `Wrappers.Result`. The error kinds are:

- `InvalidConnection`: the ValueError for a connection other than 'star' or 'delta';
- `DivisionByZero`: ZeroDivisionError;
- `TooFewPoints`: `np.gradient` on fewer than two points;
- `UnknownScenario`: an unknown scenario name;
- `UnknownAttribute`: the AttributeError from getattr;
- `MissingKey`: the KeyError raised on the empty dictionary of a failed integration.

Some things the model cannot compute are parameters, with only the laws it uses stated:

- `Transcendental.Transcendentals` stands for sin, cos, sqrt, atan2 and pi, with its laws
  in `Valid()`.
- `Engine.RootFinder` stands for `fsolve`.
- `Engine.IvpSolver` stands for `solve_ivp` with its dense output.
- `Engine.FloatText` stands for `str()` of a float.

Numbers are exact reals.

## Model

| member | source | states |
|---|---|---|
| Units.RpmToRadps | simulator/grok/utils.py:32-34 | rpm_to_radps keeps the sign of the speed: zero exactly at zero, positive exactly for a positive speed |
| Units.RadpsToRpm | simulator/grok/utils.py:37-39 | radps_to_rpm keeps the sign of the speed: zero exactly at zero, positive exactly for a positive speed |
| Units.SpeedRoundTrip | simulator/grok/utils.py:32-39 | rpm_to_radps and radps_to_rpm are inverse to each other for every speed |
| Units.SynchronousSpeedUnits | simulator/grok/utils.py:42-49 | the rpm synchronous speed 120 f/p is twice the rad/s synchronous speed 2 pi f/p converted to rpm: the two helpers disagree by a factor of two, as written |
| Units.SynchronousSpeedRpm | simulator/grok/utils.py:42-44 | the rpm synchronous speed is zero exactly when the frequency is, and positive exactly when frequency and pole count have the same sign |
| Units.SynchronousSpeedRadps | simulator/grok/utils.py:47-49 | the rad/s synchronous speed is zero exactly when the frequency is, and positive exactly when frequency and pole count have the same sign |
| Units.PhaseVoltage | simulator/grok/utils.py:52-59 | star (in any letter case) gives V/sqrt(3), so 3 r² = V² with the sign of V; delta gives V unchanged; any other connection raises the ValueError, and only then |
| Units.LineCurrent | simulator/grok/utils.py:62-69 | star gives the phase current unchanged; delta gives sqrt(3) I, so r² = 3 I² with the sign of I; any other connection raises the ValueError, and only then |
| Units.ThreePhasePowerInvariant | simulator/grok/utils.py:52-69 | for either valid connection, 3 V_phase I_phase = sqrt(3) V_line I_line |
| Units.PowerFactorCorrection | simulator/grok/utils.py:72-80 | inductive exactly when the current angle exceeds the voltage angle, capacitive exactly when it is below, unity exactly when they are equal |
| Units.PowerFactorCorrectionSwap | simulator/grok/utils.py:72-80 | exchanging the two angles exchanges inductive and capacitive and keeps unity |
| Units.CalculatePowerFactor | simulator/grok/utils.py:83-94 | (1.0, unity) for zero apparent power; otherwise the clamped magnitude of P/S, which lies in [0, 1]; unity exactly when P/S ≥ 1, inductive exactly when 0 ≤ P/S < 1, capacitive exactly when P/S < 0 |
| Units.PowerFactorExample | simulator/grok/utils.py:83-94 | 1000 W over 1200 VA gives 5/6, inductive |
| Units.WrapAngle | simulator/grok/utils.py:97-103 | the normalised angle lies in (-180, 180] |
| Units.WrapAngleUnique | simulator/grok/utils.py:97-103 | the normalised angle is the only angle in (-180, 180] that differs from the input by whole turns |
| Units.WrapAngleFixes | simulator/grok/utils.py:97-103 | angles already in (-180, 180] are unchanged, so normalisation is idempotent |
| Units.WrapAnglePeriodic | simulator/grok/utils.py:97-103 | adding whole turns to the input does not change the normalised angle |
| Units.NormalizeAngle | simulator/grok/utils.py:97-103 | the two while loops (subtract 360 while above 180, add 360 while at or below -180) return the representative of the angle in (-180, 180] |
| Units.CalculateRms | simulator/grok/utils.py:106-110 | from a peak value, the value of the same sign whose square is half the peak's square; a value already RMS is returned unchanged |
| Units.CalculatePeak | simulator/grok/utils.py:113-117 | from an RMS value, the value of the same sign whose square is twice the RMS value's square; a value already peak is returned unchanged |
| Units.RmsPeakRoundTrip | simulator/grok/utils.py:106-117 | calculate_peak undoes calculate_rms and the reverse, with the same flag |
| Units.Radians | simulator/grok/utils.py:22-24 | deg_to_rad (np.radians) keeps the sign of the angle: zero exactly at zero, positive exactly for a positive angle |
| Units.Degrees | simulator/grok/utils.py:27-29 | rad_to_deg (np.degrees) keeps the sign of the angle: zero exactly at zero, positive exactly for a positive angle |
| Units.AngleRoundTrip | simulator/grok/utils.py:22-29 | rad_to_deg undoes deg_to_rad |
| Units.PolarToRectangular | simulator/grok/utils.py:9-12 | the phasor's squared magnitude is the square of the given magnitude, whatever the angle |
| Units.RectangularToPolar | simulator/grok/utils.py:15-19 | the magnitude returned is non-negative and its square is the phasor's squared magnitude |
| Units.PolarOfNonnegativeReal | simulator/grok/utils.py:9-19 | a non-negative real x has polar form (x, 0°), and polar_to_rectangular of that gives back x |
| MotorModel.NamedAttr | simulator/grok/motor_model.py:42-64 | every data attribute of the record is found under its own name |
| MotorModel.WithGet | simulator/grok/motor_model.py:66-74 | setattr changes the attribute it names and no other |
| MotorModel.ResolveLookup | simulator/grok/motor_model.py:66-74 | keeping the keyword arguments that name one of the record's data attributes, each attribute receives the value of the last keyword argument that names it |
| MotorModel.OverrideGet | simulator/grok/motor_model.py:66-74 | after applying assignments in order, each attribute reads the last value assigned to it, else its old value |
| MotorModel.ResolveDistinct | simulator/grok/motor_model.py:66-74 | distinct keyword arguments resolve to distinct attributes, each found among the arguments |
| MotorModel.SynchronousMotor.UpdateParameters | simulator/grok/motor_model.py:66-74 | the new record is the old one with every keyword argument that names an attribute applied; when 'f' or 'p' was passed, omega_m is set to the synchronous speed, and a zero pole count then raises ZeroDivisionError after the assignments |
| MotorModel.SynchronousMotor.constructor | simulator/grok/motor_model.py:42-64 | the new motor holds the default 5 kVA record at rest |
| MotorModel.InternalVoltage | simulator/grok/motor_model.py:119-133 | the EMF is K_e · If = 100 If on the reference axis |
| MotorModel.CurrentPhasor | simulator/grok/motor_model.py:135-150 | the current satisfies the circuit equation V = E + (Rs + j Xs) I with Xs = (Xd + Xq)/2 |
| MotorModel.LoadAngle | simulator/grok/motor_model.py:152-160 | the load angle, normalised in degrees and returned in radians, lies in (-pi, pi] |
| MotorModel.ElectromagneticTorque | simulator/grok/motor_model.py:162-181 | T_e = P / omega_s: the torque times the synchronous speed is the active power calculate_powers reports for the same phasors, and that product is at most the apparent power S in magnitude |
| MotorModel.CalculatePowers | simulator/grok/motor_model.py:200-229 | S = 3 \|V\| \|I\| ≥ 0, P = S cos phi, Q = S sin phi with phi = angle I − angle V; the power factor is calculate_power_factor(P, S), in [0, 1] |
| MotorModel.PowerTriangle | simulator/grok/motor_model.py:200-229 | the reported powers satisfy P² + Q² = S² with S ≥ 0 and pf in [0, 1] |
| MotorModel.ActivePowerBounded | simulator/grok/motor_model.py:200-229 | the active power calculate_powers reports is at most the apparent power in magnitude |
| MotorModel.TorqueMax | simulator/grok/motor_model.py:183-198 | the peak 3 V_phase \|E\| / (omega_s Xs) is defined exactly for a valid connection |
| MotorModel.TorqueFromAngle | simulator/grok/motor_model.py:183-198 | T_max sin(delta), raising exactly for an invalid connection |
| MotorModel.TorqueAngleShape | simulator/grok/motor_model.py:183-198 | the torque-angle curve is zero at delta = 0, odd in delta, and bounded in magnitude by \|T_max\| |
| MotorModel.Torques | simulator/grok/motor_model.py:340-348 | the list comprehension gives the torque at every angle, in order; it raises only for an invalid connection on a non-empty list |
| MotorModel.TorqueAngleCurve | simulator/grok/motor_model.py:340-348 | the angles are linspace(lo, hi, n) and each torque is the torque at its angle |
| MotorModel.MaximumTorque | simulator/grok/motor_model.py:350-356 | the largest torque of the 100-point curve over [0, pi], with the first angle where it occurs |
| MotorModel.MaximumTorqueBounds | simulator/grok/motor_model.py:350-356 | the maximum torque lies between 0 and \|T_max\| |
| MotorModel.SteadyStateAnalysis | simulator/grok/motor_model.py:231-286 | raises exactly for an invalid connection; otherwise the current satisfies the circuit equation, and the load angle, torque, powers, phase voltage and synchronous speeds are those of the phasors; the inputs are echoed |
| MotorModel.SteadyStateLoadAngleIsZero | simulator/grok/motor_model.py:231-286 | V and E both lie on the reference axis, so for non-negative voltage and field current the reported load angle is 0 whatever the load |
| MotorModel.SteadyStateIgnoresLoad | simulator/grok/motor_model.py:231-286 | the load torque only appears echoed: changing it changes no computed entry |
| MotorModel.SteadyStatePowers | simulator/grok/motor_model.py:231-286 | the reported powers satisfy the power triangle |
| MotorModel.SteadyStateTorque | simulator/grok/motor_model.py:231-286 | the reported torque equals the reported active power over the reported synchronous speed |
| MotorModel.DynamicDerivatives | simulator/grok/motor_model.py:288-309 | J dω/dt = T_e(delta) − T_load − B ω and d delta/dt = ω_s − ω; raises exactly for an invalid connection |
| MotorModel.Equilibrium | simulator/grok/motor_model.py:288-309 | both derivatives vanish exactly when the rotor turns at synchronous speed and the torque balances load plus damping |
| MotorModel.EquilibriumAtRest | simulator/grok/motor_model.py:288-309 | with no load and no damping, synchronous speed at zero load angle is an equilibrium |
| MotorModel.SynchronousMotor.PowerFactorVsExcitation | simulator/grok/motor_model.py:358-379 | the curve is the steady-state power factor at each of n field currents over [lo, hi]; the record is restored after success, and left at the first field current when the analysis raises |
| MotorModel.SynchronousMotor.ExcitationPoints | simulator/grok/motor_model.py:370-374 | the loop yields the excitation curve's power factors and kinds, or its error, which is raised at the first field current; only the field current changes |
| MotorModel.SynchronousMotor.SetAttr | simulator/grok/simulation_engine.py:182-196 | setattr on one data attribute: the new record is the old one with that attribute replaced |
| MotorModel.PowerFactorAt | simulator/grok/motor_model.py:358-379 | the power factor at one field current lies in [0, 1]; it raises exactly for an invalid connection |
| MotorModel.ExcitationCurve | simulator/grok/motor_model.py:358-379 | point k of the curve is the steady state at field current k; it raises only for an invalid connection on a non-empty range |
| MotorModel.ExcitationCurveStep | simulator/grok/motor_model.py:358-379 | one more loop iteration extends the curve by the point at the next field current |
| Arrays.Linspace | simulator/grok/simulation_engine.py:112 | n samples starting at a |
| Arrays.LinspaceUniform | simulator/grok/simulation_engine.py:112 | the grid ends at b and is uniformly spaced by (b − a)/(n − 1) |
| Arrays.ArgMax | simulator/grok/simulation_engine.py:220 | the first index of the largest element |
| Arrays.Max | simulator/grok/scenarios.py:397 | an upper bound of the elements that is attained |
| Arrays.Gradient | simulator/grok/simulation_engine.py:214 | np.gradient has one element per sample: the one-sided difference quotient at each end and numpy's second-order formula for uneven spacing inside |
| Arrays.UniformGradient | simulator/grok/simulation_engine.py:214 | on a uniform grid, np.gradient is the centred difference inside and the one-sided difference at each end |
| Arrays.GradientOfLine | simulator/grok/simulation_engine.py:214 | the gradient of a straight line's samples is its slope everywhere |
| Arrays.Concat | simulator/grok/scenarios.py:378-383 | np.concatenate of a list of arrays is as long as all the arrays together |
| Arrays.ConcatAt | simulator/grok/scenarios.py:378-383 | np.concatenate puts element i of part j at the total length of the earlier parts plus i |
| Engine.StabilityAnalysis | simulator/grok/simulation_engine.py:200-231 | the grid is linspace(lo, hi, n); each torque is the torque at its angle; dTe is np.gradient of the torques; a point is stable exactly when dTe < 0; T_max is the first maximum and delta_max its angle; it raises for an invalid connection, then for fewer than two points |
| Engine.StabilityGradient | simulator/grok/simulation_engine.py:211-218 | on the uniform grid, dTe is the centred or one-sided difference, and stability is its negativity |
| Engine.StabilityPeakBounded | simulator/grok/simulation_engine.py:220-222 | the peak torque found on the grid is at most \|T_max\| |
| Engine.TransientResponse | simulator/grok/simulation_engine.py:72-160 | raises exactly for an invalid connection; gives the empty dictionary exactly when the integrator fails; otherwise every series holds 1000 samples |
| Engine.TransientSamples | simulator/grok/simulation_engine.py:112-158 | the time grid runs uniformly from t0 to t1; at every sample, T_load is the record's load, T_e is the torque-angle curve at the sampled angle (bounded by \|T_max\|), P = T_e ω_s, Q = 0, pf = 1, and delta_deg converts the angle |
| Engine.ResponseSamples | simulator/grok/simulation_engine.py:72-160 | the same sample properties, stated on a successful simulate_transient_response |
| Engine.SimulationEngine.SimulateTransientResponse | simulator/grok/simulation_engine.py:72-160 | the result is TransientResponse of the record; after success the record holds the last sample's angle, speed and time; after a raise it is unchanged |
| Engine.SimulationEngine.WalkSamples | simulator/grok/simulation_engine.py:133-151 | the loop computes the torque at each sampled angle, P = T_e ω_s, Q = 0 and pf = 1, and leaves the last sample's state in the record |
| Engine.SolvedState | simulator/grok/simulation_engine.py:55-68 | after solve_steady_state every attribute but the angle is as before; the angle is fsolve's root unless 'delta' was among the overridden arguments, in which case it is restored too |
| Engine.SimulationEngine.SolveSteadyState | simulator/grok/simulation_engine.py:30-70 | the analysis is that of the record with the keyword arguments applied; afterwards every overridden attribute is restored and the angle is fsolve's root (unless 'delta' itself was overridden); after a raise nothing is restored |
| Engine.RestoreAfterSolve | simulator/grok/simulation_engine.py:36-69 | saving, overriding, setting the angle and restoring the saved values gives SolvedState |
| MotorModel.RestoreOriginals | simulator/grok/simulation_engine.py:37-40 | putting the saved values back restores every touched attribute and leaves the others |
| Engine.SimulationEngine.ParameterSweep | simulator/grok/simulation_engine.py:162-198 | AttributeError for a name that is no attribute, with the record unchanged; otherwise the results are the steady states of the records with each value swept in and the fixed arguments applied, in order, and the record is SweepExit |
| Engine.SweepExit | simulator/grok/simulation_engine.py:179-196 | an empty sweep leaves the record as it was; a completed one restores the swept attribute and leaves the others as the last step set them; a raising one leaves the first step's record |
| Engine.Sweep | simulator/grok/simulation_engine.py:182-194 | result k is the steady state of the record with value k swept in, under 'parameter_<name>'; raises only for an invalid connection on a non-empty range |
| Engine.SweepPrefix | simulator/grok/simulation_engine.py:182-194 | the sweep over the first i values: i results, result k analysed at value k, raising only for an invalid connection when i > 0 |
| Engine.SweepNext | simulator/grok/simulation_engine.py:182-194 | a failing analysis can only be the first and fails the whole sweep; a successful one extends the prefix by its point |
| Engine.SimulationEngine.SweepValues | simulator/grok/simulation_engine.py:182-196 | the loop over the values yields Sweep and leaves the record at SweepExit |
| Engine.SweepRestores | simulator/grok/simulation_engine.py:196 | after a successful sweep the swept attribute is restored, the fixed arguments stay applied, and the rest is unchanged except the angle |
| Engine.SweepStepRecord | simulator/grok/simulation_engine.py:182-194 | each step's record does not depend on what the previous step left outside the swept and fixed attributes |
| Engine.DefaultScenario | simulator/grok/simulation_engine.py:264-285 | the four names select a scenario with its defaults, and no other name does |
| Engine.ScenarioRun | simulator/grok/simulation_engine.py:287-371 | each engine scenario reports its name, description and extra entry, and its transient holds full series; it raises exactly for an invalid connection |
| Engine.ScenarioSamples | simulator/grok/simulation_engine.py:287-371 | a scenario's transient runs from 0 to t_final with the load of its record (zero for startup, the scaled load for overload) at every sample |
| Engine.DefaultScenarioLabel | simulator/grok/simulation_engine.py:264-285 | the scenario a name selects reports that name |
| Engine.SimulationEngine.RunScenario | simulator/grok/simulation_engine.py:287-371 | the common body: the result is ScenarioRun, and the record is left at the last sample with the load torque put back |
| Engine.SimulationEngine.ScenarioStartup | simulator/grok/simulation_engine.py:287-304 | the startup run, unloaded from rest, with the load restored |
| Engine.SimulationEngine.ScenarioLoadIncrease | simulator/grok/simulation_engine.py:306-330 | the run from synchronous speed at 0.1 rad with the stepped profile reported |
| Engine.SimulationEngine.ScenarioExcitationChange | simulator/grok/simulation_engine.py:332-350 | the run from synchronous speed at 0.2 rad with the linear excitation profile reported |
| Engine.SimulationEngine.ScenarioOverload | simulator/grok/simulation_engine.py:352-371 | the run at the scaled load from synchronous speed at 0.5 rad, with the load restored |
| Engine.SimulationEngine.SimulateScenario | simulator/grok/simulation_engine.py:264-285 | ValueError for an unknown name with the record unchanged; otherwise the selected scenario's run, which reports the name |
| Engine.BuildLoadProfile | simulator/grok/simulation_engine.py:313-320 | the array, zeroed and then overwritten step by step over each step's interval, equals LoadProfileValues |
| Engine.LoadProfileEnds | simulator/grok/simulation_engine.py:316-320 | the profile starts at T_load/steps at t = 0 and reaches the full T_load at t_final |
| Engine.ExcitationProfileEnds | simulator/grok/simulation_engine.py:340-341 | the excitation profile runs from If_initial at t = 0 to If_final at t_final |
| Scenarios.Dispatch | simulator/grok/scenarios.py:51-66 | the entry found has the name looked up |
| Scenarios.DispatchFindsEveryEntry | simulator/grok/scenarios.py:53-61 | every entry of the table is found under its name |
| Scenarios.GetScenarioDescription | simulator/grok/scenarios.py:38-49 | the entry's description, or 'Escenario desconocido' for a name outside the table |
| Scenarios.CatalogueDistinct | simulator/grok/scenarios.py:26-36 | no scenario name is listed twice |
| Scenarios.GetAvailableScenarios | simulator/grok/scenarios.py:26-36 | seven names, each of which run_scenario dispatches to the entry of that name |
| Scenarios.CatalogueComplete | simulator/grok/scenarios.py:26-66 | the available scenarios are exactly the names run_scenario dispatches, listed once each, and each has a description of its own |
| Scenarios.SimulationScenarios.RunScenario | simulator/grok/scenarios.py:51-66 | ValueError for a name outside the table, with the record unchanged; otherwise the entry's scenario with default arguments, whose result reports the name it was run by |
| Scenarios.DefaultOutcomeName | simulator/grok/scenarios.py:51-66 | every entry's scenario reports the entry's name |
| Scenarios.StartupOutcome | simulator/grok/scenarios.py:68-110 | raises exactly for an invalid connection, leaving the load at zero; otherwise it restores the record's parameters |
| Scenarios.StartupRuns | simulator/grok/scenarios.py:68-110 | a successful start-up reports ω_s and n_s = 120 f/p, and its transient runs from 0 to t_final with zero load and each torque on the unloaded motor's curve |
| Scenarios.SimulationScenarios.ScenarioStartupIdeal | simulator/grok/scenarios.py:68-110 | result and new record are StartupOutcome of the old record |
| Scenarios.LoadScheduleEnds | simulator/grok/scenarios.py:138-141 | the load ratio starts at 0 and reaches max_load_ratio at the last step |
| Scenarios.StartTimeIsMultiple | simulator/grok/scenarios.py:136-164 | the running start time of segment k is k segment durations |
| Scenarios.ScheduleOvershoots | simulator/grok/scenarios.py:138-164 | the load_steps + 1 segments end one duration past t_final |
| Scenarios.LoadSegments | simulator/grok/scenarios.py:138-164 | the segments completed before the first that raises, each the segment run after its predecessor |
| Scenarios.LoadSegmentsFail | simulator/grok/scenarios.py:138-164 | a segment that raises ends the run: the completed segments are those before it, with its error |
| Scenarios.LoadSegmentsStay | simulator/grok/scenarios.py:138-164 | once a segment has raised, later steps change nothing |
| Scenarios.LoadSegmentsChain | simulator/grok/scenarios.py:138-164 | segment k is loaded with ratio k and integrated over [k d, (k + 1) d], from synchronous speed at 0.1 rad when k = 0 and from the last sample of segment k − 1 otherwise |
| Scenarios.LoadIncreaseOutcome | simulator/grok/scenarios.py:112-173 | zero steps raise ZeroDivisionError with the record unchanged; a success restores the record's parameters |
| Scenarios.SimulationScenarios.ScenarioLoadIncreaseGradual | simulator/grok/scenarios.py:112-173 | result and new record are LoadIncreaseOutcome of the old record |
| Scenarios.SimulationScenarios.LoadIncreaseLoop | simulator/grok/scenarios.py:135-164 | the loop completes LoadSegments and leaves the record at LoadExit |
| Scenarios.CombineStepResults | simulator/grok/scenarios.py:371-387 | {} for no segments; KeyError exactly when a segment has no series; otherwise the load ratios in segment order |
| Scenarios.CombinedLayout | simulator/grok/scenarios.py:371-387 | the combined series hold 1000 samples per segment, with sample i of segment j at 1000 j + i |
| Scenarios.CombineOverloadResults | simulator/grok/scenarios.py:389-402 | {} for no trials; otherwise, per trial in order, its ratio, its stability flag, np.max of its angles and np.max of its speed deviations abs(omega_m - omega_s), each an attained bound (Arrays.Max) |
| Scenarios.CheckStability | simulator/grok/scenarios.py:404-425 | the maxima criterion holds exactly when every sample is within 5 rad/s of synchronous speed and below pi/2 in angle magnitude |
| Scenarios.SteadyAt | simulator/grok/scenarios.py:233-238 | each steady state of the profile satisfies the power triangle at its field current |
| Scenarios.SteadyProfile | simulator/grok/scenarios.py:233-243 | entry j is the steady state at the first profile sample of j's group of ten, cut to the profile's length |
| Scenarios.ExcitationOutcome | simulator/grok/scenarios.py:200-257 | a success reports its direction and restores the record's parameters; a failed integration raises KeyError and leaves If_initial in the record |
| Scenarios.ExcitationProfiles | simulator/grok/scenarios.py:224-243 | the excitation profile runs from If_initial to If_final over 1000 samples; every pf is in [0, 1]; entry j of the pf profile is the steady-state pf at the first sample of j's group of ten |
| Scenarios.SimulationScenarios.ExcitationChangeScenario | simulator/grok/scenarios.py:200-257 | result and new record are ExcitationOutcome of the old record |
| Scenarios.SimulationScenarios.ScenarioExcitationSubToOver | simulator/grok/scenarios.py:175-187 | the common excitation scenario with direction 'sub_to_over' |
| Scenarios.SimulationScenarios.ScenarioExcitationOverToSub | simulator/grok/scenarios.py:189-198 | the common excitation scenario with direction 'over_to_sub' |
| Scenarios.SimulationScenarios.SteadyGroups | simulator/grok/scenarios.py:233-238 | the loop covers the profile with whole groups of ten, each entry the steady state at its group's first sample, and leaves that sample of the last group as the field current |
| Scenarios.SimulationScenarios.SteadyProfileLoop | simulator/grok/scenarios.py:233-243 | the loop over every tenth sample yields SteadyProfile and leaves the last visited field current in the record |
| Scenarios.Run | simulator/grok/scenarios.py:279-291 | a loop stopped by the first step that raises: the values of the steps before it, and its error |
| Scenarios.RunStays | simulator/grok/scenarios.py:279-291 | once a step raises, no later step runs |
| Scenarios.OverloadStep | simulator/grok/scenarios.py:280-289 | a completed trial carries its ratio and full series |
| Scenarios.OverloadTrialsChain | simulator/grok/scenarios.py:279-291 | trial k integrates the motor loaded with ratio k from synchronous speed at 0.3 rad over [0, t_final], and its flag is _check_stability on it |
| Scenarios.OverloadOutcome | simulator/grok/scenarios.py:259-300 | a success reports an overload result and restores the record's parameters |
| Scenarios.SimulationScenarios.ScenarioOverloadTest | simulator/grok/scenarios.py:259-300 | result and new record are OverloadOutcome of the old record |
| Scenarios.SimulationScenarios.OverloadLoop | simulator/grok/scenarios.py:276-291 | the loop completes Run over the trials and leaves the record at OverloadExit |

## Left out

- Floating point: numbers are exact reals. The divisions by zero below are excluded by
  preconditions, one line each with what the source does in that case:
  - `MotorModel.Nondegenerate`, p != 0: synchronous_speed_radps and synchronous_speed_rpm
    raise ZeroDivisionError on Python floats (utils.py:42-49).
  - `MotorModel.Nondegenerate`, f != 0: omega_s is 0. calculate_electromagnetic_torque then
    gives numpy inf or nan (motor_model.py:162-181). calculate_torque_from_angle raises
    ZeroDivisionError for a delta connection and gives inf or nan for star
    (motor_model.py:183-198).
  - `MotorModel.Nondegenerate`, Xd + Xq != 0: calculate_current_phasor raises
    ZeroDivisionError when Rs is 0 too (motor_model.py:135-150).
    calculate_torque_from_angle divides by the mean reactance as above.
  - `Engine.Dynamic` (Nondegenerate and J != 0), on dynamic_model_derivatives, the transient
    runs and every scenario: the division by J gives inf or nan (motor_model.py:288-309).
  - m.p != 0 on `Scenarios.CheckStability`, `Scenarios.CombineOverloadResults` and the other
    scenario functions that take only the record: ZeroDivisionError in the synchronous speed.
  - lo != hi on `Engine.StabilityAnalysis`, `Engine.StabilityGradient` and
    `Engine.StabilityPeakBounded`: a constant angle grid makes np.gradient give inf or nan
    (simulation_engine.py:200-218).
  - tFinal != 0 on `Scenarios.ExcitationOutcome`, `Scenarios.SimulationScenarios.ExcitationChangeScenario`,
    `Scenarios.SimulationScenarios.ScenarioExcitationSubToOver`,
    `Scenarios.SimulationScenarios.ScenarioExcitationOverToSub`, `Engine.ExcitationProfileOf`,
    `Engine.ExcitationProfileEnds`, `Engine.SimulationEngine.ScenarioExcitationChange` and
    `Engine.EngineScenario.Defined`: the excitation profile divides by t_final and gives nan
    or inf (scenarios.py:226, simulation_engine.py:341).
  The ZeroDivisionError of update_parameters when p becomes 0 (motor_model.py:72-74), and of
  scenario_load_increase_gradual for zero load steps (scenarios.py:140), are modelled as a
  `DivisionByZero` error.
- sin, cos, sqrt, atan2 and pi are parameters (`Transcendentals`). Only the laws the proofs
  use are assumed of them: sin odd and bounded, sin² + cos² = 1, sqrt the non-negative root,
  atan2(0, x) = 0 for x ≥ 0.
- `solve_ivp`, `fsolve` and `str()` of a float are parameters. The integrator's accuracy,
  the solver's convergence and tolerances, and the exact float formatting are not modelled.
- `simulate_transient` (odeint) and `find_operating_point` in the engine are not part of this
  model. Both are thin wrappers around a numerical solver.
- The placeholder scenarios `scenario_frequency_variation` and `scenario_voltage_sag` appear
  only by name and description, in the catalogue and the dispatcher.
- The dispatchers `run_scenario` and `simulate_scenario` are modelled without keyword
  arguments, with each scenario's defaults. The individual scenario methods take their
  arguments explicitly.
- The engine's `time_step` attribute (simulation_engine.py:28) is never read, and is left
  out. The `events` argument of simulate_transient_response (simulation_engine.py:75, passed
  to solve_ivp at :105) is not modelled: every caller passes none. The `get_*_parameters`
  dictionaries are plain reads and are left out.
- Engine.SimulationEngine.ParameterSweep: the fixed keyword arguments are applied through the
  `MotorModel.Resolve` filter, so only names of the record's data attributes take effect. The
  source sets them with a bare setattr (simulation_engine.py:186-187): an unknown name there
  becomes a new attribute that nothing reads, and a method's name replaces the method. Neither
  is modelled.
- Engine.SimulationEngine.ParameterSweep: requires that the swept name is not 'connection'
  and that the fixed values have their attributes' kinds (`MotorModel.WellTyped`). In the
  source, a float connection makes phase_voltage raise AttributeError on `.lower()`, and a
  badly typed value raises TypeError in the arithmetic; neither error path is modelled.
- MotorModel.SynchronousMotor.UpdateParameters, Engine.SimulationEngine.SolveSteadyState:
  require that each keyword value has its attribute's kind (`MotorModel.WellTyped`). The
  source accepts any value: update_parameters stores `connection=5.0` without complaint
  (motor_model.py:68-70), and solve_steady_state with such a value then raises
  AttributeError on `.lower()`, also through its fallback (simulation_engine.py:50-63).
  These mistyped assignments and that error path are not modelled.
- MotorModel.AttrNamed: names the record's data attributes only. Python's hasattr in
  update_parameters is also true for the record's methods and dunder names, and setting one
  of those replaces it; that is not modelled.
- `print` output, the GUI, plots and the command-line entry point are not modelled.
- Scenarios.StartupRuns: states the transient through `SampleHolds` and the load and grid
  facts, not as the integrator's call written out.
- Scenarios.OverloadTrialsChain: states the 'stable' flag as `CheckStability` on the trial;
  the per-sample meaning of that criterion is the contract of `Scenarios.CheckStability`.
- Units.SynchronousSpeedUnits: the rad/s and rpm synchronous speeds differ by a factor of two
  for the same (f, p). Both are modelled as written; the lemma states the factor.
- Connections are compared after lower-casing ASCII letters only.
- Python dictionaries returned by the scenarios are datatypes with one field per entry.
  `results.update(config)` keeps only the entries the model reads (name, description,
  parameters).

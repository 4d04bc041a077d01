/** The three-phase salient-pole synchronous motor of motor_model.py: its record of parameters
    and state, the phasor steady-state analysis, the torque-angle characteristic and the
    two-state dynamic model. */
module MotorModel {
  import opened Wrappers
  import opened Transcendental
  import opened Units
  import Arrays

  // ---------------------------------------------------------------- the motor record

  /** The fields every calculation reads: electrical (Rs, Xd, Xq, Rf in ohm), mechanical
      (J, B, pole count p) and operating (line voltage, frequency, field current, load torque,
      'star' or 'delta' connection). */
  datatype Parameters = Parameters(
    Rs: real, Xd: real, Xq: real, Rf: real,
    J: real, B: real, p: real,
    VLine: real, f: real, If: real, TLoad: real,
    connection: string)

  /** The whole motor record: the parameters plus the state the simulations write
      (load angle delta in rad, mechanical speed in rad/s, simulation time in s). */
  datatype Snapshot = Snapshot(params: Parameters, delta: real, omegaM: real, time: real)
  {
    /** getattr(motor, a.Name()). */
    function Get(a: Attr): Value {
      match a
      case StatorResistance => Num(params.Rs)
      case DirectReactance => Num(params.Xd)
      case QuadratureReactance => Num(params.Xq)
      case FieldResistance => Num(params.Rf)
      case Inertia => Num(params.J)
      case Damping => Num(params.B)
      case Poles => Num(params.p)
      case LineVoltage => Num(params.VLine)
      case Frequency => Num(params.f)
      case FieldCurrent => Num(params.If)
      case LoadTorque => Num(params.TLoad)
      case Connection => Text(params.connection)
      case RotorAngle => Num(delta)
      case MechanicalSpeed => Num(omegaM)
      case SimulationTime => Num(time)
    }

    /** setattr(motor, a.Name(), v): the one attribute changes and no other. */
    function With(a: Attr, v: Value): Snapshot
      requires Fits(a, v)
    {
      match a
      case StatorResistance => this.(params := params.(Rs := v.x))
      case DirectReactance => this.(params := params.(Xd := v.x))
      case QuadratureReactance => this.(params := params.(Xq := v.x))
      case FieldResistance => this.(params := params.(Rf := v.x))
      case Inertia => this.(params := params.(J := v.x))
      case Damping => this.(params := params.(B := v.x))
      case Poles => this.(params := params.(p := v.x))
      case LineVoltage => this.(params := params.(VLine := v.x))
      case Frequency => this.(params := params.(f := v.x))
      case FieldCurrent => this.(params := params.(If := v.x))
      case LoadTorque => this.(params := params.(TLoad := v.x))
      case Connection => this.(params := params.(connection := v.s))
      case RotorAngle => this.(delta := v.x)
      case MechanicalSpeed => this.(omegaM := v.x)
      case SimulationTime => this.(time := v.x)
    }
  }

  /** The record SynchronousMotorModel() starts with: a small 5 kVA motor at rest. */
  const DefaultParameters := Parameters(0.5, 5.0, 3.5, 0.1, 0.1, 0.01, 4.0, 400.0, 50.0, 2.0, 10.0, "star")
  const DefaultSnapshot := Snapshot(DefaultParameters, 0.0, 0.0, 0.0)

  /** The attributes of the motor record. */
  datatype Attr =
    | StatorResistance | DirectReactance | QuadratureReactance | FieldResistance
    | Inertia | Damping | Poles
    | LineVoltage | Frequency | FieldCurrent | LoadTorque | Connection
    | RotorAngle | MechanicalSpeed | SimulationTime
  {
    /** The attribute's name in the Python record. */
    function Name(): string {
      match this
      case StatorResistance => "Rs"
      case DirectReactance => "Xd"
      case QuadratureReactance => "Xq"
      case FieldResistance => "Rf"
      case Inertia => "J"
      case Damping => "B"
      case Poles => "p"
      case LineVoltage => "V_line"
      case Frequency => "f"
      case FieldCurrent => "If"
      case LoadTorque => "T_load"
      case Connection => "connection"
      case RotorAngle => "delta"
      case MechanicalSpeed => "omega_m"
      case SimulationTime => "time"
    }
  }

  /** The data attribute of the motor record that key names, or None when key names none of
      the record's data attributes. */
  function AttrNamed(key: string): (r: Option<Attr>)
    ensures r.Some? ==> r.value.Name() == key
  {
    if key == "Rs" then Some(StatorResistance)
    else if key == "Xd" then Some(DirectReactance)
    else if key == "Xq" then Some(QuadratureReactance)
    else if key == "Rf" then Some(FieldResistance)
    else if key == "J" then Some(Inertia)
    else if key == "B" then Some(Damping)
    else if key == "p" then Some(Poles)
    else if key == "V_line" then Some(LineVoltage)
    else if key == "f" then Some(Frequency)
    else if key == "If" then Some(FieldCurrent)
    else if key == "T_load" then Some(LoadTorque)
    else if key == "connection" then Some(Connection)
    else if key == "delta" then Some(RotorAngle)
    else if key == "omega_m" then Some(MechanicalSpeed)
    else if key == "time" then Some(SimulationTime)
    else None
  }

  /** A value assigned to an attribute: a number, or the connection string. */
  datatype Value = Num(x: real) | Text(s: string)

  /** The value has the kind of the attribute it is assigned to. */
  predicate Fits(a: Attr, v: Value) {
    (a == Connection) == v.Text?
  }

  /** Every attribute is found under its own name. */
  lemma NamedAttr(a: Attr)
    ensures AttrNamed(a.Name()) == Some(a)
  {
  }

  /** A list of (attribute, value) assignments, applied in order like a Python dict's items. */
  type Updates = seq<(Attr, Value)>

  /** The keyword arguments that name one of the record's data attributes, in their order. */
  function Resolve(kwargs: seq<(string, Value)>): (r: Updates)
    ensures |r| <= |kwargs|
  {
    if kwargs == [] then []
    else
      var (key, v) := kwargs[|kwargs| - 1];
      var init := Resolve(kwargs[..|kwargs| - 1]);
      match AttrNamed(key)
      case Some(a) => init + [(a, v)]
      case None => init
  }

  /** After the filter, each attribute is assigned the last keyword argument of its name. */
  lemma {:induction false} ResolveLookup(kwargs: seq<(string, Value)>, a: Attr)
    ensures Lookup(Resolve(kwargs), a) == Find(kwargs, a.Name())
  {
    if kwargs != [] {
      var (key, v) := kwargs[|kwargs| - 1];
      var init := Resolve(kwargs[..|kwargs| - 1]);
      ResolveLookup(kwargs[..|kwargs| - 1], a);
      NamedAttr(a);
      match AttrNamed(key)
      case Some(b) =>
        assert (init + [(b, v)])[..|init|] == init;
      case None =>
    }
  }

  /** The value of the last keyword argument called key. */
  function Find(kwargs: seq<(string, Value)>, key: string): Option<Value> {
    if kwargs == [] then None
    else if kwargs[|kwargs| - 1].0 == key then Some(kwargs[|kwargs| - 1].1)
    else Find(kwargs[..|kwargs| - 1], key)
  }

  /** The value of the last assignment to attribute a. */
  function Lookup(u: Updates, a: Attr): Option<Value> {
    if u == [] then None
    else if u[|u| - 1].0 == a then Some(u[|u| - 1].1)
    else Lookup(u[..|u| - 1], a)
  }

  /** Every assignment carries a value of its attribute's kind. */
  predicate WellTyped(u: Updates) {
    forall i :: 0 <= i < |u| ==> Fits(u[i].0, u[i].1)
  }

  /** Setting attribute a changes what a reads and nothing else. */
  lemma WithGet(s: Snapshot, a: Attr, v: Value, b: Attr)
    requires Fits(a, v)
    ensures s.With(a, v).Get(b) == if b == a then v else s.Get(b)
  {
  }

  /** The record after setattr of every assignment, in order. */
  function Override(s: Snapshot, u: Updates): Snapshot
    requires WellTyped(u)
  {
    if u == [] then s
    else Override(s, u[..|u| - 1]).With(u[|u| - 1].0, u[|u| - 1].1)
  }

  /** After the assignments an attribute reads the last value assigned to it, else its old value. */
  lemma {:induction false} OverrideGet(s: Snapshot, u: Updates, a: Attr)
    requires WellTyped(u)
    ensures Override(s, u).Get(a) == if Lookup(u, a).Some? then Lookup(u, a).value else s.Get(a)
  {
    if u != [] {
      var init := u[..|u| - 1];
      OverrideGet(s, init, a);
      WithGet(Override(s, init), u[|u| - 1].0, u[|u| - 1].1, a);
    }
  }

  /** No attribute is assigned twice. */
  predicate Distinct(u: Updates) {
    forall i, j :: 0 <= i < j < |u| ==> u[i].0 != u[j].0
  }

  /** No keyword argument is passed twice, as in a Python dict. */
  predicate DistinctNames(kwargs: seq<(string, Value)>) {
    forall i, j :: 0 <= i < j < |kwargs| ==> kwargs[i].0 != kwargs[j].0
  }

  /** The attributes the assignments touch. */
  function Touched(u: Updates): set<Attr> {
    set i | 0 <= i < |u| :: u[i].0
  }

  /** An attribute no assignment touches keeps its value. */
  lemma {:induction false} LookupUntouched(u: Updates, a: Attr)
    requires a !in Touched(u)
    ensures Lookup(u, a).None?
  {
    if u != [] {
      var init := u[..|u| - 1];
      assert Touched(init) <= Touched(u) by {
        forall b | b in Touched(init) ensures b in Touched(u) {
          var i :| 0 <= i < |init| && init[i].0 == b;
          assert u[i].0 == b;
        }
      }
      assert u[|u| - 1].0 in Touched(u);
      LookupUntouched(init, a);
    }
  }

  /** Distinct keyword arguments resolve to distinct attributes. */
  lemma {:induction false} ResolveDistinct(kwargs: seq<(string, Value)>)
    requires DistinctNames(kwargs)
    ensures Distinct(Resolve(kwargs))
    ensures forall a :: a in Touched(Resolve(kwargs)) ==> Find(kwargs, a.Name()).Some?
  {
    if kwargs != [] {
      var (key, v) := kwargs[|kwargs| - 1];
      var rest := kwargs[..|kwargs| - 1];
      var init := Resolve(rest);
      ResolveDistinct(rest);
      forall a | a in Touched(Resolve(kwargs)) ensures Find(kwargs, a.Name()).Some? {
        ResolveLookup(kwargs, a);
        var i :| 0 <= i < |Resolve(kwargs)| && Resolve(kwargs)[i].0 == a;
        LookupAt(Resolve(kwargs), i);
      }
      match AttrNamed(key)
      case Some(b) =>
        assert forall i :: 0 <= i < |rest| ==> rest[i].0 != key by {
          forall i | 0 <= i < |rest| ensures rest[i].0 != key {
            assert kwargs[i] == rest[i];
          }
        }
        FindAbsent(rest, key);
        forall i | 0 <= i < |init| ensures init[i].0 != b {
          LookupAt(init, i);
          ResolveLookup(rest, init[i].0);
        }
      case None =>
    }
  }

  /** A key never passed is not found. */
  lemma {:induction false} FindAbsent(kwargs: seq<(string, Value)>, key: string)
    requires forall i :: 0 <= i < |kwargs| ==> kwargs[i].0 != key
    ensures Find(kwargs, key).None?
  {
    if kwargs != [] {
      FindAbsent(kwargs[..|kwargs| - 1], key);
    }
  }

  /** An assigned attribute has some last assignment. */
  lemma {:induction false} LookupAt(u: Updates, i: nat)
    requires i < |u|
    ensures Lookup(u, u[i].0).Some?
  {
    if i < |u| - 1 {
      var init := u[..|u| - 1];
      LookupAt(init, i);
    }
  }

  /** The values the attributes an assignment list touches had in record s, in its order:
      what solve_steady_state saves before overriding them. */
  function Originals(s: Snapshot, u: Updates): (r: Updates)
    ensures |r| == |u| && WellTyped(r)
  {
    seq(|u|, i requires 0 <= i < |u| => (u[i].0, s.Get(u[i].0)))
  }

  /** Putting the saved values back restores every touched attribute and leaves the others
      as they are. */
  lemma {:induction false} RestoreOriginals(s: Snapshot, u: Updates, t: Snapshot, a: Attr)
    ensures Override(t, Originals(s, u)).Get(a) == if a in Touched(u) then s.Get(a) else t.Get(a)
  {
    OverrideGet(t, Originals(s, u), a);
    LookupOriginals(s, u, a);
  }

  lemma {:induction false} LookupOriginals(s: Snapshot, u: Updates, a: Attr)
    ensures Lookup(Originals(s, u), a) == if a in Touched(u) then Some(s.Get(a)) else None
  {
    if u == [] {
    } else {
      var init := u[..|u| - 1];
      assert Originals(s, u)[..|u| - 1] == Originals(s, init);
      LookupOriginals(s, init, a);
      assert Touched(u) == Touched(init) + {u[|u| - 1].0} by {
        forall b | b in Touched(u) ensures b in Touched(init) + {u[|u| - 1].0} {
          var i :| 0 <= i < |u| && u[i].0 == b;
          if i < |u| - 1 {
            assert init[i].0 == b;
          }
        }
        forall b | b in Touched(init) ensures b in Touched(u) {
          var i :| 0 <= i < |init| && init[i].0 == b;
          assert u[i].0 == b;
        }
      }
    }
  }

  /** Two records that agree on every attribute are equal. */
  lemma Extensional(s: Snapshot, t: Snapshot)
    requires forall a :: s.Get(a) == t.Get(a)
    ensures s == t
  {
    assert s.Get(StatorResistance) == t.Get(StatorResistance);
    assert s.Get(DirectReactance) == t.Get(DirectReactance);
    assert s.Get(QuadratureReactance) == t.Get(QuadratureReactance);
    assert s.Get(FieldResistance) == t.Get(FieldResistance);
    assert s.Get(Inertia) == t.Get(Inertia);
    assert s.Get(Damping) == t.Get(Damping);
    assert s.Get(Poles) == t.Get(Poles);
    assert s.Get(LineVoltage) == t.Get(LineVoltage);
    assert s.Get(Frequency) == t.Get(Frequency);
    assert s.Get(FieldCurrent) == t.Get(FieldCurrent);
    assert s.Get(LoadTorque) == t.Get(LoadTorque);
    assert s.Get(Connection) == t.Get(Connection);
    assert s.Get(RotorAngle) == t.Get(RotorAngle);
    assert s.Get(MechanicalSpeed) == t.Get(MechanicalSpeed);
    assert s.Get(SimulationTime) == t.Get(SimulationTime);
  }

  /** Setting an attribute back to the value it had restores the record. */
  lemma WithOwnValue(s: Snapshot, a: Attr)
    ensures Fits(a, s.Get(a)) && s.With(a, s.Get(a)) == s
  {
    forall b ensures s.With(a, s.Get(a)).Get(b) == s.Get(b) {
      WithGet(s, a, s.Get(a), b);
    }
    Extensional(s.With(a, s.Get(a)), s);
  }

  // ---------------------------------------------------------------- phasor model

  /** The calculations divide by the pole count, the frequency and the mean reactance; the
      model only covers records where these are non-zero. */
  predicate Nondegenerate(m: Parameters) {
    m.p != 0.0 && m.f != 0.0 && m.Xd + m.Xq != 0.0
  }

  /** K_e, the internal EMF per ampere of field current (V/A). */
  const KE: real := 100.0

  /** The mean synchronous reactance (Xd + Xq) / 2 the phasor model uses. */
  function MeanReactance(m: Parameters): real {
    (m.Xd + m.Xq) / 2.0
  }

  /** The stator impedance Rs + j Xs. */
  function Impedance(m: Parameters): Complex {
    Complex(m.Rs, MeanReactance(m))
  }

  /** calculate_internal_voltage: the EMF is K_e · If on the reference axis. */
  function InternalVoltage(tr: Transcendentals, m: Parameters): (e: Complex)
    requires tr.Valid()
    ensures e == Complex(KE * m.If, 0.0)
  {
    PolarAtZero(tr, KE * m.If);
    PolarToRectangular(tr, KE * m.If, 0.0)
  }

  /** A non-zero mean reactance makes the impedance a non-zero divisor. */
  lemma ImpedanceNonzero(m: Parameters)
    requires MeanReactance(m) != 0.0
    ensures Impedance(m).NormSquared() != 0.0
  {
    SumOfSquaresNonzero(m.Rs, MeanReactance(m));
  }

  lemma SumOfSquaresNonzero(r: real, x: real)
    requires x != 0.0
    ensures r * r + x * x != 0.0
  {
    var q := x * x;
    assert q / x == x;
    assert r * r >= 0.0 && q >= 0.0;
  }

  /** calculate_current_phasor: I = (V - E) / (Rs + j Xs), so that V = E + (Rs + j Xs) I. */
  function CurrentPhasor(m: Parameters, v: Complex, e: Complex): (i: Complex)
    requires Nondegenerate(m)
    ensures Impedance(m).Mul(i) == v.Sub(e)
  {
    ImpedanceNonzero(m);
    v.Sub(e).Div(Impedance(m)).value
  }

  /** calculate_load_angle: the angle of E minus the angle of V, normalised to (-180°, 180°]
      and returned in radians, so it lies in (-pi, pi]. */
  function LoadAngle(tr: Transcendentals, v: Complex, e: Complex): (delta: real)
    requires tr.Valid()
    ensures -tr.pi < delta <= tr.pi
  {
    var w := WrapAngle(Degrees(tr, e.Phase(tr)) - Degrees(tr, v.Phase(tr)));
    RadiansInRange(tr, w);
    Radians(tr, w)
  }

  lemma RadiansInRange(tr: Transcendentals, w: real)
    requires tr.Valid() && -180.0 < w <= 180.0
    ensures -tr.pi < Radians(tr, w) <= tr.pi
  {
    var p := tr.pi;
    MulPositive(w + 180.0, p);
    MulNonnegative(180.0 - w, p);
    assert (w + 180.0) * p == w * p + 180.0 * p;
    assert (180.0 - w) * p == 180.0 * p - w * p;
  }

  lemma MulPositive(a: real, b: real)
    requires 0.0 < a && 0.0 < b
    ensures 0.0 < a * b
  {
  }

  lemma MulNonnegative(a: real, b: real)
    requires 0.0 <= a && 0.0 <= b
    ensures 0.0 <= a * b
  {
  }

  /** calculate_electromagnetic_torque: T_e = P / omega_s, with P the active power that
      calculate_powers reports for the same phasors, so the torque's power never exceeds the
      apparent power. */
  function ElectromagneticTorque(tr: Transcendentals, m: Parameters, v: Complex, i: Complex): (r: real)
    requires tr.Valid() && Nondegenerate(m)
    ensures TorqueBalance(r, SynchronousSpeedRadps(tr, m.f, m.p), CalculatePowers(tr, v, i).P)
    ensures Arrays.Abs(r * SynchronousSpeedRadps(tr, m.f, m.p)) <= CalculatePowers(tr, v, i).S
  {
    var omegaS := SynchronousSpeedRadps(tr, m.f, m.p);
    var vm, im := v.Magnitude(tr), i.Magnitude(tr);
    var c := tr.cos(i.Phase(tr) - v.Phase(tr));
    Arrays.Cancel(3.0 * vm * im * c, omegaS);
    assert 3.0 * vm * im * c == 3.0 * (vm * im) * c;
    ActivePowerBounded(tr, v, i);
    3.0 * vm * im * c / omegaS
  }

  /** The active power is at most the apparent power in magnitude: |cos| <= 1 follows from
      sin^2 + cos^2 = 1. */
  lemma ActivePowerBounded(tr: Transcendentals, v: Complex, i: Complex)
    requires tr.Valid()
    ensures Arrays.Abs(CalculatePowers(tr, v, i).P) <= CalculatePowers(tr, v, i).S
  {
    var phi := i.Phase(tr) - v.Phase(tr);
    tr.Laws(phi);
    CosineScaled(CalculatePowers(tr, v, i).S, tr.cos(phi), tr.sin(phi));
  }

  /** A non-negative S times the cosine of a point on the unit circle is at most S in
      magnitude. */
  lemma CosineScaled(S: real, c: real, s: real)
    requires 0.0 <= S && s * s + c * c == 1.0
    ensures Arrays.Abs(S * c) <= S
  {
    assert c * c <= 1.0 by {
      assert s * s >= 0.0;
    }
    var a := Arrays.Abs(c);
    assert a <= 1.0 by {
      assert a * a == c * c;
    }
    assert Arrays.Abs(S * c) == S * a;
  }

  /** The three-phase powers and power factor of calculate_powers. */
  datatype Powers = Powers(S: real, P: real, Q: real, pf: real, pfType: PfType)
  {
    /** The power triangle: a non-negative apparent power S with P² + Q² = S², and a power
        factor in [0, 1]. */
    predicate Consistent() {
      && S >= 0.0
      && P * P + Q * Q == S * S
      && 0.0 <= pf <= 1.0
    }
  }

  /** calculate_powers: S = 3 |V| |I|, P = S cos(phi), Q = S sin(phi) with phi the angle of I
      minus the angle of V, and the power factor of P over S. */
  function CalculatePowers(tr: Transcendentals, v: Complex, i: Complex): (r: Powers)
    requires tr.Valid()
    ensures r.S == 3.0 * (v.Magnitude(tr) * i.Magnitude(tr)) && r.S >= 0.0
    ensures r.P == r.S * tr.cos(i.Phase(tr) - v.Phase(tr))
    ensures r.Q == r.S * tr.sin(i.Phase(tr) - v.Phase(tr))
    ensures (r.pf, r.pfType) == CalculatePowerFactor(r.P, r.S)
    ensures 0.0 <= r.pf <= 1.0
  {
    var vm, im := v.Magnitude(tr), i.Magnitude(tr);
    var phi := i.Phase(tr) - v.Phase(tr);
    MagnitudeNonnegative(tr, v);
    MagnitudeNonnegative(tr, i);
    MulNonnegative(vm, im);
    var S := 3.0 * (vm * im);
    var P, Q := S * tr.cos(phi), S * tr.sin(phi);
    var (pf, kind) := CalculatePowerFactor(P, S);
    Powers(S, P, Q, pf, kind)
  }

  /** The powers calculate_powers reports satisfy the power triangle. */
  lemma PowerTriangle(tr: Transcendentals, v: Complex, i: Complex)
    requires tr.Valid()
    ensures CalculatePowers(tr, v, i).Consistent()
  {
    var r := CalculatePowers(tr, v, i);
    var phi := i.Phase(tr) - v.Phase(tr);
    tr.Laws(phi);
  }

  lemma MagnitudeNonnegative(tr: Transcendentals, z: Complex)
    requires tr.Valid()
    ensures z.Magnitude(tr) >= 0.0
  {
    assert z.NormSquared() >= 0.0;
    tr.Laws(z.NormSquared());
  }

  /** A torque te at a non-zero speed omega delivers the power p = te omega. */
  predicate TorqueBalance(te: real, omega: real, p: real) {
    omega != 0.0 && te * omega == p
  }


  // ---------------------------------------------------------------- torque-angle characteristic

  /** The peak 3 V_phase |E| / (omega_s Xs) of the torque-angle curve; ValueError for an
      unknown connection. */
  function TorqueMax(tr: Transcendentals, m: Parameters): (r: Result<real>)
    requires tr.Valid() && Nondegenerate(m)
    ensures r.Ok? <==> ValidConnection(m.connection)
    ensures r.Err? ==> r.error == InvalidConnection
  {
    var vPhase :- PhaseVoltage(tr, m.VLine, m.connection);
    var eMagnitude := InternalVoltage(tr, m).Magnitude(tr);
    var omegaS := SynchronousSpeedRadps(tr, m.f, m.p);
    ProductNonzero(omegaS, MeanReactance(m));
    Ok(3.0 * vPhase * eMagnitude / (omegaS * MeanReactance(m)))
  }

  lemma ProductNonzero(a: real, b: real)
    requires a != 0.0 && b != 0.0
    ensures a * b != 0.0
  {
    assert (a * b) / b == a;
  }

  /** calculate_torque_from_angle: T_e(delta) = T_max sin(delta). */
  function TorqueFromAngle(tr: Transcendentals, m: Parameters, delta: real): (r: Result<real>)
    requires tr.Valid() && Nondegenerate(m)
    ensures r.Ok? <==> ValidConnection(m.connection)
    ensures r.Err? ==> r.error == InvalidConnection
  {
    var tMax :- TorqueMax(tr, m);
    Ok(tMax * tr.sin(delta))
  }

  /** The torque-angle curve passes through zero at delta = 0, is odd in delta and never
      exceeds the peak in magnitude. */
  lemma TorqueAngleShape(tr: Transcendentals, m: Parameters, delta: real)
    requires tr.Valid() && Nondegenerate(m) && ValidConnection(m.connection)
    ensures TorqueFromAngle(tr, m, 0.0) == Ok(0.0)
    ensures TorqueFromAngle(tr, m, -delta).value == -TorqueFromAngle(tr, m, delta).value
    ensures Arrays.Abs(TorqueFromAngle(tr, m, delta).value) <= Arrays.Abs(TorqueMax(tr, m).value)
  {
    var t := TorqueMax(tr, m).value;
    tr.Laws(delta);
    assert tr.sin(-delta) == -tr.sin(delta);
    assert t * tr.sin(-delta) == -(t * tr.sin(delta));
    BoundedProduct(t, tr.sin(delta));
  }

  lemma BoundedProduct(a: real, s: real)
    requires -1.0 <= s <= 1.0
    ensures Arrays.Abs(a * s) <= Arrays.Abs(a)
  {
    if a >= 0.0 {
      MulNonnegative(a, 1.0 - s);
      MulNonnegative(a, 1.0 + s);
    } else {
      MulNonnegative(-a, 1.0 - s);
      MulNonnegative(-a, 1.0 + s);
    }
  }

  /** The torques at the given angles, the list comprehension of torque_angle_curve; the
      first failing call raises, and an empty list raises nothing. */
  function Torques(tr: Transcendentals, m: Parameters, deltas: seq<real>): (r: Result<seq<real>>)
    requires tr.Valid() && Nondegenerate(m)
    ensures r.Ok? <==> |deltas| == 0 || ValidConnection(m.connection)
    ensures r.Err? ==> r.error == InvalidConnection
    ensures r.Ok? ==>
      && |r.value| == |deltas|
      && forall k :: 0 <= k < |deltas| ==> r.value[k] == TorqueFromAngle(tr, m, deltas[k]).value
  {
    if |deltas| > 0 && !ValidConnection(m.connection) then Err(InvalidConnection)
    else Ok(seq(|deltas|, k requires 0 <= k < |deltas| => TorqueFromAngle(tr, m, deltas[k]).value))
  }

  /** torque_angle_curve: n angles evenly spaced over [lo, hi] and the torque at each. */
  function TorqueAngleCurve(tr: Transcendentals, m: Parameters, lo: real, hi: real, n: nat): (r: Result<(seq<real>, seq<real>)>)
    requires tr.Valid() && Nondegenerate(m)
    ensures r.Ok? <==> n == 0 || ValidConnection(m.connection)
    ensures r.Ok? ==>
      && r.value.0 == Arrays.Linspace(lo, hi, n) && |r.value.1| == n
      && forall k :: 0 <= k < n ==> r.value.1[k] == TorqueFromAngle(tr, m, r.value.0[k]).value
  {
    var deltas := Arrays.Linspace(lo, hi, n);
    var torques :- Torques(tr, m, deltas);
    Ok((deltas, torques))
  }

  /** maximum_torque: the largest torque of the default 100-point curve over [0, pi] and the
      first angle where it occurs. */
  function MaximumTorque(tr: Transcendentals, m: Parameters): (r: Result<(real, real)>)
    requires tr.Valid() && Nondegenerate(m)
    ensures r.Ok? <==> ValidConnection(m.connection)
    ensures r.Ok? ==>
      var (deltas, torques) := TorqueAngleCurve(tr, m, 0.0, tr.pi, 100).value;
      var k := Arrays.ArgMax(torques);
      r.value == (torques[k], deltas[k])
  {
    var (deltas, torques) :- TorqueAngleCurve(tr, m, 0.0, tr.pi, 100);
    var k := Arrays.ArgMax(torques);
    Ok((torques[k], deltas[k]))
  }

  /** The maximum torque is at least the torque at delta = 0, which is zero, and at most the
      magnitude of the peak T_max. */
  lemma MaximumTorqueBounds(tr: Transcendentals, m: Parameters)
    requires tr.Valid() && Nondegenerate(m) && ValidConnection(m.connection)
    ensures 0.0 <= MaximumTorque(tr, m).value.0 <= Arrays.Abs(TorqueMax(tr, m).value)
  {
    var (deltas, torques) := TorqueAngleCurve(tr, m, 0.0, tr.pi, 100).value;
    var k := Arrays.ArgMax(torques);
    assert deltas[0] == 0.0;
    TorqueAngleShape(tr, m, deltas[k]);
    assert torques[0] == 0.0;
    assert torques[0] <= torques[k];
  }

  // ---------------------------------------------------------------- steady state

  /** The dictionary steady_state_analysis returns. */
  datatype SteadyState = SteadyState(
    VLine: real, VPhase: real, f: real, If: real, TLoad: real,
    omegaS: real, nS: real, delta: real, deltaDeg: real,
    IMagnitude: real, IAngle: real, Te: real,
    EMagnitude: real, VMagnitude: real,
    powers: Powers)
  {
    /** The torque is the active power over a non-zero synchronous speed. */
    predicate TorqueMatchesPower() {
      TorqueBalance(Te, omegaS, powers.P)
    }
  }

  /** The phase-voltage phasor steady_state_analysis puts on the reference axis. */
  function VoltagePhasor(tr: Transcendentals, m: Parameters): Complex
    requires tr.Valid() && ValidConnection(m.connection)
  {
    PolarToRectangular(tr, PhaseVoltage(tr, m.VLine, m.connection).value, 0.0)
  }

  /** The stator current phasor of the steady state. */
  function StatorCurrent(tr: Transcendentals, m: Parameters): Complex
    requires tr.Valid() && Nondegenerate(m) && ValidConnection(m.connection)
  {
    CurrentPhasor(m, VoltagePhasor(tr, m), InternalVoltage(tr, m))
  }

  /** steady_state_analysis: V on the reference axis, E from the field current, I from the
      circuit equation, then the load angle, torque, powers and speeds. */
  function SteadyStateAnalysis(tr: Transcendentals, m: Parameters): (r: Result<SteadyState>)
    requires tr.Valid() && Nondegenerate(m)
    ensures r.Ok? <==> ValidConnection(m.connection)
    ensures r.Err? ==> r.error == InvalidConnection
    ensures r.Ok? ==>
      var v, e, i := VoltagePhasor(tr, m), InternalVoltage(tr, m), StatorCurrent(tr, m);
      && Impedance(m).Mul(i) == v.Sub(e)
      && r.value.VPhase == PhaseVoltage(tr, m.VLine, m.connection).value
      && r.value.delta == LoadAngle(tr, v, e)
      && r.value.Te == ElectromagneticTorque(tr, m, v, i)
      && r.value.powers == CalculatePowers(tr, v, i)
      && r.value.omegaS == SynchronousSpeedRadps(tr, m.f, m.p)
      && r.value.nS == SynchronousSpeedRpm(m.f, m.p)
      && (r.value.VLine, r.value.f, r.value.If, r.value.TLoad) == (m.VLine, m.f, m.If, m.TLoad)
  {
    var vPhase :- PhaseVoltage(tr, m.VLine, m.connection);
    var v, e, i := VoltagePhasor(tr, m), InternalVoltage(tr, m), StatorCurrent(tr, m);
    var delta := LoadAngle(tr, v, e);
    var (iMagnitude, iAngle) := RectangularToPolar(tr, i);
    Ok(SteadyState(
      m.VLine, vPhase, m.f, m.If, m.TLoad,
      SynchronousSpeedRadps(tr, m.f, m.p), SynchronousSpeedRpm(m.f, m.p),
      delta, Degrees(tr, delta), iMagnitude, iAngle, ElectromagneticTorque(tr, m, v, i),
      e.Magnitude(tr), v.Magnitude(tr), CalculatePowers(tr, v, i)))
  }

  /** Both V and E are put on the reference axis, so for a non-negative line voltage and
      field current the reported load angle is zero whatever the load. */
  lemma SteadyStateLoadAngleIsZero(tr: Transcendentals, m: Parameters)
    requires tr.Valid() && Nondegenerate(m) && ValidConnection(m.connection)
    requires 0.0 <= m.VLine && 0.0 <= m.If
    ensures SteadyStateAnalysis(tr, m).value.delta == 0.0
    ensures SteadyStateAnalysis(tr, m).value.deltaDeg == 0.0
  {
    var vPhase := PhaseVoltage(tr, m.VLine, m.connection).value;
    assert 0.0 <= vPhase;
    PolarAtZero(tr, vPhase);
    var v := Complex(vPhase, 0.0);
    var e := InternalVoltage(tr, m);
    assert e == Complex(KE * m.If, 0.0);
    tr.Laws(vPhase);
    tr.Laws(KE * m.If);
    assert v.Phase(tr) == tr.atan2(0.0, vPhase) == 0.0;
    assert e.Phase(tr) == tr.atan2(0.0, KE * m.If) == 0.0;
    AngleRoundTrip(tr, 0.0);
    WrapAngleFixes(0.0);
  }

  /** The load torque is only echoed: changing it changes no computed quantity. */
  lemma SteadyStateIgnoresLoad(tr: Transcendentals, m: Parameters, tLoad: real)
    requires tr.Valid() && Nondegenerate(m) && ValidConnection(m.connection)
    ensures SteadyStateAnalysis(tr, m.(TLoad := tLoad)).value
            == SteadyStateAnalysis(tr, m).value.(TLoad := tLoad)
  {
  }

  /** The reported powers satisfy the power triangle. */
  lemma SteadyStatePowers(tr: Transcendentals, m: Parameters)
    requires tr.Valid() && Nondegenerate(m) && ValidConnection(m.connection)
    ensures SteadyStateAnalysis(tr, m).value.powers.Consistent()
  {
    PowerTriangle(tr, VoltagePhasor(tr, m), StatorCurrent(tr, m));
  }

  /** The reported torque is the reported active power over the reported synchronous speed. */
  lemma SteadyStateTorque(tr: Transcendentals, m: Parameters)
    requires tr.Valid() && Nondegenerate(m) && ValidConnection(m.connection)
    ensures SteadyStateAnalysis(tr, m).value.TorqueMatchesPower()
  {
  }

  // ---------------------------------------------------------------- dynamic model

  /** dynamic_model_derivatives at state (omega_m, delta):
      d omega_m / dt = (T_e(delta) - T_load - B omega_m) / J and d delta / dt = omega_s - omega_m. */
  function DynamicDerivatives(tr: Transcendentals, m: Parameters, omegaM: real, delta: real): (r: Result<(real, real)>)
    requires tr.Valid() && Nondegenerate(m) && m.J != 0.0
    ensures r.Ok? <==> ValidConnection(m.connection)
    ensures r.Err? ==> r.error == InvalidConnection
    ensures r.Ok? ==>
      && r.value.0 * m.J == TorqueFromAngle(tr, m, delta).value - m.TLoad - m.B * omegaM
      && r.value.1 == SynchronousSpeedRadps(tr, m.f, m.p) - omegaM
  {
    var te :- TorqueFromAngle(tr, m, delta);
    var omegaS := SynchronousSpeedRadps(tr, m.f, m.p);
    Arrays.Cancel(te - m.TLoad - m.B * omegaM, m.J);
    Ok(((te - m.TLoad - m.B * omegaM) / m.J, omegaS - omegaM))
  }

  /** A state is an equilibrium of the dynamic model exactly when the rotor turns at
      synchronous speed and the electromagnetic torque balances load and damping there. */
  lemma Equilibrium(tr: Transcendentals, m: Parameters, omegaM: real, delta: real)
    requires tr.Valid() && Nondegenerate(m) && m.J != 0.0 && ValidConnection(m.connection)
    ensures DynamicDerivatives(tr, m, omegaM, delta) == Ok((0.0, 0.0))
        <==> (omegaM == SynchronousSpeedRadps(tr, m.f, m.p)
              && TorqueFromAngle(tr, m, delta).value == m.TLoad + m.B * omegaM)
  {
    var r := DynamicDerivatives(tr, m, omegaM, delta).value;
    if r.0 == 0.0 {
      assert r.0 * m.J == 0.0;
    } else {
      ProductNonzero(r.0, m.J);
    }
  }

  /** With no load and no damping, synchronous speed at zero load angle is an equilibrium. */
  lemma EquilibriumAtRest(tr: Transcendentals, m: Parameters)
    requires tr.Valid() && Nondegenerate(m) && m.J != 0.0 && ValidConnection(m.connection)
    requires m.TLoad == 0.0 && m.B == 0.0
    ensures DynamicDerivatives(tr, m, SynchronousSpeedRadps(tr, m.f, m.p), 0.0) == Ok((0.0, 0.0))
  {
    TorqueAngleShape(tr, m, 0.0);
    Equilibrium(tr, m, SynchronousSpeedRadps(tr, m.f, m.p), 0.0);
  }

  // ---------------------------------------------------------------- the mutable motor

  /** SynchronousMotorModel: the motor record, updated in place by the simulations. */
  class SynchronousMotor {
    var Rs: real
    var Xd: real
    var Xq: real
    var Rf: real
    var J: real
    var B: real
    var p: real
    var VLine: real
    var f: real
    var If: real
    var TLoad: real
    var connection: string
    var delta: real
    var omegaM: real
    var time: real

    function Params(): Parameters
      reads this
    {
      Parameters(Rs, Xd, Xq, Rf, J, B, p, VLine, f, If, TLoad, connection)
    }

    function State(): Snapshot
      reads this
    {
      Snapshot(Params(), delta, omegaM, time)
    }

    /** The default motor: a small 5 kVA star-connected motor at rest. */
    constructor()
      ensures State() == DefaultSnapshot
    {
      Rs, Xd, Xq, Rf := 0.5, 5.0, 3.5, 0.1;
      J, B, p := 0.1, 0.01, 4.0;
      VLine, f, If, TLoad, connection := 400.0, 50.0, 2.0, 10.0, "star";
      delta, omegaM, time := 0.0, 0.0, 0.0;
    }

    /** setattr on one attribute. */
    method SetAttr(a: Attr, v: Value)
      requires Fits(a, v)
      modifies this
      ensures State() == old(State()).With(a, v)
    {
      match a
      case StatorResistance => Rs := v.x;
      case DirectReactance => Xd := v.x;
      case QuadratureReactance => Xq := v.x;
      case FieldResistance => Rf := v.x;
      case Inertia => J := v.x;
      case Damping => B := v.x;
      case Poles => p := v.x;
      case LineVoltage => VLine := v.x;
      case Frequency => f := v.x;
      case FieldCurrent => If := v.x;
      case LoadTorque => TLoad := v.x;
      case Connection => connection := v.s;
      case RotorAngle => delta := v.x;
      case MechanicalSpeed => omegaM := v.x;
      case SimulationTime => time := v.x;
    }

    /** The save-and-override loop of solve_steady_state: for each assignment, remember the
        attribute's current value, then set it. */
    method SaveAndApply(u: Updates) returns (saved: Updates)
      requires WellTyped(u) && Distinct(u)
      modifies this
      ensures saved == Originals(old(State()), u)
      ensures State() == Override(old(State()), u)
    {
      saved := [];
      for i := 0 to |u|
        invariant saved == Originals(old(State()), u[..i])
        invariant State() == Override(old(State()), u[..i])
      {
        var a := u[i].0;
        assert forall j :: 0 <= j < i ==> u[..i][j].0 != a;
        assert a !in Touched(u[..i]);
        LookupUntouched(u[..i], a);
        OverrideGet(old(State()), u[..i], a);
        saved := saved + [(a, State().Get(a))];
        SetAttr(a, u[i].1);
        assert u[..i + 1][..i] == u[..i];
      }
      assert u[..|u|] == u;
    }

    /** setattr for every assignment, in order. */
    method ApplyUpdates(u: Updates)
      requires WellTyped(u)
      modifies this
      ensures State() == Override(old(State()), u)
    {
      for i := 0 to |u|
        invariant State() == Override(old(State()), u[..i])
      {
        assert u[..i + 1][..i] == u[..i];
        SetAttr(u[i].0, u[i].1);
      }
      assert u[..|u|] == u;
    }

    /** update_parameters: set every keyword argument that names an attribute (the others are
        skipped), then recompute omega_m as the synchronous speed when 'f' or 'p' was passed
        (ZeroDivisionError when p is then zero). */
    method UpdateParameters(tr: Transcendentals, kwargs: seq<(string, Value)>) returns (o: Outcome)
      requires tr.Valid() && WellTyped(Resolve(kwargs))
      modifies this
      ensures var s := Override(old(State()), Resolve(kwargs));
        if Find(kwargs, "f").None? && Find(kwargs, "p").None? then o == Pass && State() == s
        else if s.params.p == 0.0 then o == Fail(DivisionByZero) && State() == s
        else o == Pass && State() == s.(omegaM := SynchronousSpeedRadps(tr, s.params.f, s.params.p))
    {
      ApplyUpdates(Resolve(kwargs));
      o := Pass;
      if Find(kwargs, "f").Some? || Find(kwargs, "p").Some? {
        if p == 0.0 {
          o := Fail(DivisionByZero);
        } else {
          omegaM := SynchronousSpeedRadps(tr, f, p);
        }
      }
    }

    /** power_factor_vs_excitation: the steady-state power factor at n field currents evenly
        spaced over [lo, hi]; the field current is restored afterwards, except when the
        analysis raises, which leaves it at the first sample. */
    method PowerFactorVsExcitation(tr: Transcendentals, lo: real, hi: real, n: nat)
      returns (r: Result<(seq<real>, seq<real>, seq<PfType>)>)
      requires tr.Valid() && Nondegenerate(Params())
      modifies this
      ensures r == ExcitationCurve(tr, old(Params()), Arrays.Linspace(lo, hi, n))
      ensures r.Ok? ==> State() == old(State())
      ensures r.Err? ==> State() == old(State()).With(FieldCurrent, Num(lo))
    {
      var values := Arrays.Linspace(lo, hi, n);
      var originalIf := If;
      var points := ExcitationPoints(tr, values);
      if points.Err? {
        return Err(points.error);
      }
      If := originalIf;
      r := Ok((values, points.value.0, points.value.1));
    }

    /** The loop of power_factor_vs_excitation: the power factor and its kind at each field
        current in turn, stopping at the first that raises; only the field current changes. */
    method ExcitationPoints(tr: Transcendentals, values: seq<real>) returns (r: Result<(seq<real>, seq<PfType>)>)
      requires tr.Valid() && Nondegenerate(Params())
      modifies this
      ensures State() == old(State()).(params := old(Params()).(If := If))
      ensures r.Ok? ==> ExcitationCurve(tr, old(Params()), values) == Ok((values, r.value.0, r.value.1))
      ensures r.Err? ==> ExcitationCurve(tr, old(Params()), values) == Err(r.error)
      ensures r.Err? ==> |values| > 0 && If == values[0]
    {
      var pfs: seq<real> := [];
      var kinds: seq<PfType> := [];
      ghost var m := Params();
      assert values[..0] == [];
      for i := 0 to |values|
        invariant i > 0 ==> ValidConnection(m.connection)
        invariant State() == old(State()).(params := m.(If := If))
        invariant ExcitationCurve(tr, m, values[..i]) == Ok((values[..i], pfs, kinds))
      {
        var point := PowerFactorAtExcitation(tr, values[i]);
        if point.Err? {
          ExcitationCurveFails(tr, m, values);
          return Err(point.error);
        }
        ExcitationCurveStep(tr, m, values, i, pfs, kinds);
        pfs := pfs + [point.value.0];
        kinds := kinds + [point.value.1];
      }
      assert values[..|values|] == values;
      r := Ok((pfs, kinds));
    }

    /** One iteration of power_factor_vs_excitation: set the field current, then analyse. */
    method PowerFactorAtExcitation(tr: Transcendentals, x: real) returns (r: Result<(real, PfType)>)
      requires tr.Valid() && Nondegenerate(Params())
      modifies this
      ensures State() == old(State()).(params := old(Params()).(If := x))
      ensures r == PowerFactorAt(tr, old(Params()), x)
    {
      If := x;
      var analysis := SteadyStateAnalysis(tr, Params());
      if analysis.Err? {
        return Err(analysis.error);
      }
      r := Ok((analysis.value.powers.pf, analysis.value.powers.pfType));
    }
  }

  /** The power factor and its kind in the steady state with field current x. */
  function PowerFactorAt(tr: Transcendentals, m: Parameters, x: real): (r: Result<(real, PfType)>)
    requires tr.Valid() && Nondegenerate(m)
    ensures r.Ok? <==> ValidConnection(m.connection)
    ensures r.Err? ==> r.error == InvalidConnection
    ensures r.Ok? ==> 0.0 <= r.value.0 <= 1.0
  {
    var a :- SteadyStateAnalysis(tr, m.(If := x));
    Ok((a.powers.pf, a.powers.pfType))
  }

  /** The power-factor curve over field currents: each point is the steady state of the record
      with that field current; the first point raises for an unknown connection. */
  function ExcitationCurve(tr: Transcendentals, m: Parameters, values: seq<real>): (r: Result<(seq<real>, seq<real>, seq<PfType>)>)
    requires tr.Valid() && Nondegenerate(m)
    ensures r.Ok? <==> |values| == 0 || ValidConnection(m.connection)
    ensures r.Err? ==> r.error == InvalidConnection
    ensures r.Ok? ==>
      && r.value.0 == values && |r.value.1| == |values| && |r.value.2| == |values|
      && forall k :: 0 <= k < |values| ==> (r.value.1[k], r.value.2[k]) == PowerFactorAt(tr, m, values[k]).value
  {
    if values == [] then Ok(([], [], []))
    else
      var (init, pfs, kinds) :- ExcitationCurve(tr, m, values[..|values| - 1]);
      var (pf, kind) :- PowerFactorAt(tr, m, values[|values| - 1]);
      Ok((values, pfs + [pf], kinds + [kind]))
  }

  /** One more point on the excitation curve. */
  lemma ExcitationCurveStep(tr: Transcendentals, m: Parameters, values: seq<real>, i: nat,
                            pfs: seq<real>, kinds: seq<PfType>)
    requires tr.Valid() && Nondegenerate(m) && ValidConnection(m.connection) && i < |values|
    requires ExcitationCurve(tr, m, values[..i]) == Ok((values[..i], pfs, kinds))
    ensures var a := PowerFactorAt(tr, m, values[i]).value;
      ExcitationCurve(tr, m, values[..i + 1]) == Ok((values[..i + 1], pfs + [a.0], kinds + [a.1]))
  {
    assert values[..i + 1][..i] == values[..i];
  }

  lemma ExcitationCurveFails(tr: Transcendentals, m: Parameters, values: seq<real>)
    requires tr.Valid() && Nondegenerate(m) && !ValidConnection(m.connection) && |values| > 0
    ensures ExcitationCurve(tr, m, values) == Err(InvalidConnection)
  {
  }
}

/** Unit conversions and classifications of utils.py: phasor conversions, speeds, the
    star/delta relations, power-factor classification, angle normalisation and RMS/peak. */
module Units {
  import opened Wrappers
  import opened Transcendental

  // ---------------------------------------------------------------- phasors

  /** A phasor re + j·im. */
  datatype Complex = Complex(re: real, im: real)
  {
    function Sub(w: Complex): Complex {
      Complex(re - w.re, im - w.im)
    }

    function Mul(w: Complex): Complex {
      Complex(re * w.re - im * w.im, re * w.im + im * w.re)
    }

    /** |z|², the squared magnitude. */
    function NormSquared(): real {
      re * re + im * im
    }

    /** Python's complex division, which raises ZeroDivisionError for a zero divisor
        (a divisor whose squared magnitude is zero). */
    function Div(w: Complex): (q: Option<Complex>)
      ensures q.None? <==> w.NormSquared() == 0.0
      ensures w == Complex(0.0, 0.0) ==> q.None?
      ensures q.Some? ==> w.Mul(q.value) == this
    {
      var n := w.NormSquared();
      if n == 0.0 then None
      else
        DivisionInverts(this, w, n);
        Some(Complex((re * w.re + im * w.im) / n, (im * w.re - re * w.im) / n))
    }

    /** abs(z). */
    function Magnitude(tr: Transcendentals): real {
      tr.sqrt(NormSquared())
    }

    /** cmath.phase(z), in radians. */
    function Phase(tr: Transcendentals): real {
      tr.atan2(im, re)
    }
  }

  /** The quotient formula of Div multiplied back by the divisor gives the dividend. */
  lemma DivisionInverts(z: Complex, w: Complex, n: real)
    requires n != 0.0 && n == w.re * w.re + w.im * w.im
    ensures w.Mul(Complex((z.re * w.re + z.im * w.im) / n, (z.im * w.re - z.re * w.im) / n)) == z
  {
    var a, b, c, d := z.re, z.im, w.re, w.im;
    var x, y := (a * c + b * d) / n, (b * c - a * d) / n;
    assert x * n == a * c + b * d;
    assert y * n == b * c - a * d;
    // (c + jd)(x + jy) scaled by n
    assert (c * x - d * y) * n == c * (x * n) - d * (y * n);
    assert c * (a * c + b * d) - d * (b * c - a * d) == a * n;
    assert (d * x + c * y) * n == d * (x * n) + c * (y * n);
    assert d * (a * c + b * d) + c * (b * c - a * d) == b * n;
    ScaleCancels(c * x - d * y, a, n);
    ScaleCancels(d * x + c * y, b, n);
  }

  lemma ScaleCancels(u: real, v: real, n: real)
    requires n != 0.0 && u * n == v * n
    ensures u == v
  {
    assert (u - v) * n == 0.0;
  }

  /** np.radians: a positive scaling, so it keeps the sign of the angle and 0 at 0. */
  function Radians(tr: Transcendentals, degrees: real): (r: real)
    requires tr.Valid()
    ensures r == 0.0 <==> degrees == 0.0
    ensures 0.0 < r <==> 0.0 < degrees
  {
    degrees * tr.pi / 180.0
  }

  /** np.degrees: a positive scaling, so it keeps the sign of the angle and 0 at 0. */
  function Degrees(tr: Transcendentals, radians: real): (r: real)
    requires tr.Valid()
    ensures r == 0.0 <==> radians == 0.0
    ensures 0.0 < r <==> 0.0 < radians
  {
    radians * 180.0 / tr.pi
  }

  /** Degrees and radians are inverse conversions, and both keep 0 at 0. */
  lemma AngleRoundTrip(tr: Transcendentals, x: real)
    requires tr.Valid()
    ensures Degrees(tr, Radians(tr, x)) == x
    ensures Radians(tr, Degrees(tr, x)) == x
    ensures Radians(tr, 0.0) == 0.0 && Degrees(tr, 0.0) == 0.0
  {
    var p := tr.pi;
    assert x * p / 180.0 * 180.0 / p == x * (p / p);
    assert x * 180.0 / p * p / 180.0 == x * (p / p);
  }

  /** polar_to_rectangular(magnitude, angle_deg): the phasor's size is the magnitude given,
      whatever the angle. */
  function PolarToRectangular(tr: Transcendentals, magnitude: real, angleDeg: real): (z: Complex)
    requires tr.Valid()
    ensures z.NormSquared() == magnitude * magnitude
  {
    var a := Radians(tr, angleDeg);
    tr.Laws(a);
    var c, s := tr.cos(a), tr.sin(a);
    assert (magnitude * c) * (magnitude * c) + (magnitude * s) * (magnitude * s)
        == magnitude * magnitude * (c * c + s * s);
    Complex(magnitude * c, magnitude * s)
  }

  /** rectangular_to_polar(z): (magnitude, angle in degrees); the magnitude is the
      non-negative root of the squared magnitude. */
  function RectangularToPolar(tr: Transcendentals, z: Complex): (r: (real, real))
    requires tr.Valid()
    ensures 0.0 <= r.0 && r.0 * r.0 == z.NormSquared()
  {
    tr.Laws(z.NormSquared());
    (z.Magnitude(tr), Degrees(tr, z.Phase(tr)))
  }

  /** A phasor at angle 0 is the real number of its magnitude. */
  lemma PolarAtZero(tr: Transcendentals, magnitude: real)
    requires tr.Valid()
    ensures PolarToRectangular(tr, magnitude, 0.0) == Complex(magnitude, 0.0)
  {
    AngleRoundTrip(tr, 0.0);
  }

  /** A non-negative real phasor has its own value as magnitude and angle 0. */
  lemma PolarOfNonnegativeReal(tr: Transcendentals, x: real)
    requires tr.Valid() && 0.0 <= x
    ensures RectangularToPolar(tr, Complex(x, 0.0)) == (x, 0.0)
  {
    var z := Complex(x, 0.0);
    tr.SqrtOfSquare(x);
    tr.Laws(x);
    assert z.NormSquared() == x * x;
    assert z.Phase(tr) == tr.atan2(0.0, x);
    AngleRoundTrip(tr, 0.0);
  }

  // ---------------------------------------------------------------- speeds

  /** rpm_to_radps: a positive scaling, so it keeps the sign of the speed and 0 at 0. */
  function RpmToRadps(tr: Transcendentals, rpm: real): (r: real)
    requires tr.Valid()
    ensures r == 0.0 <==> rpm == 0.0
    ensures 0.0 < r <==> 0.0 < rpm
  {
    rpm * 2.0 * tr.pi / 60.0
  }

  /** radps_to_rpm: a positive scaling, so it keeps the sign of the speed and 0 at 0. */
  function RadpsToRpm(tr: Transcendentals, radps: real): (r: real)
    requires tr.Valid()
    ensures r == 0.0 <==> radps == 0.0
    ensures 0.0 < r <==> 0.0 < radps
  {
    radps * 60.0 / (2.0 * tr.pi)
  }

  /** The two speed conversions undo each other. */
  lemma SpeedRoundTrip(tr: Transcendentals, x: real)
    requires tr.Valid()
    ensures RadpsToRpm(tr, RpmToRadps(tr, x)) == x
    ensures RpmToRadps(tr, RadpsToRpm(tr, x)) == x
  {
    var p := tr.pi;
    assert x * 2.0 * p / 60.0 * 60.0 / (2.0 * p) == x * ((2.0 * p) / (2.0 * p));
    assert x * 60.0 / (2.0 * p) * 2.0 * p / 60.0 == x * ((2.0 * p) / (2.0 * p));
  }

  /** synchronous_speed_rpm(f, p) = 120 f / p: zero exactly for zero frequency, and positive
      exactly when frequency and pole count have the same sign. */
  function SynchronousSpeedRpm(f: real, p: real): (r: real)
    requires p != 0.0
    ensures r == 0.0 <==> f == 0.0
    ensures 0.0 < r <==> 0.0 < f * p
  {
    120.0 * f / p
  }

  /** synchronous_speed_radps(f, p) = 2 pi f / p: zero exactly for zero frequency, and
      positive exactly when frequency and pole count have the same sign. */
  function SynchronousSpeedRadps(tr: Transcendentals, f: real, p: real): (r: real)
    requires tr.Valid() && p != 0.0
    ensures r == 0.0 <==> f == 0.0
    ensures 0.0 < r <==> 0.0 < f * p
  {
    2.0 * tr.pi * f / p
  }

  /** As written, the rad/s synchronous speed converted to rpm is half the rpm synchronous
      speed: the two helpers use different pole conventions. */
  lemma SynchronousSpeedUnits(tr: Transcendentals, f: real, p: real)
    requires tr.Valid() && p != 0.0
    ensures 2.0 * RadpsToRpm(tr, SynchronousSpeedRadps(tr, f, p)) == SynchronousSpeedRpm(f, p)
    ensures RpmToRadps(tr, SynchronousSpeedRpm(f, p)) == 2.0 * SynchronousSpeedRadps(tr, f, p)
  {
    var pi, g := tr.pi, f / p;
    assert 2.0 * pi * f / p == 2.0 * pi * g;
    assert 120.0 * f / p == 120.0 * g;
    var w := 2.0 * pi * g;
    assert SynchronousSpeedRadps(tr, f, p) == w;
    assert SynchronousSpeedRpm(f, p) == 120.0 * g;
    assert 60.0 * g * (2.0 * pi) / (2.0 * pi) == 60.0 * g;
    assert w * 60.0 == (60.0 * g) * (2.0 * pi);
    assert 120.0 * g * 2.0 * pi / 60.0 == 2.0 * w;
  }

  // ---------------------------------------------------------------- connections

  function LowerChar(c: char): char {
    if 'A' <= c <= 'Z' then (c as int + 32) as char else c
  }

  /** str.lower() on the ASCII letters. */
  function Lower(s: string): (r: string)
    ensures |r| == |s|
  {
    seq(|s|, i requires 0 <= i < |s| => LowerChar(s[i]))
  }

  predicate IsStar(connection: string) {
    Lower(connection) == "star"
  }

  predicate IsDelta(connection: string) {
    Lower(connection) == "delta"
  }

  /** The connections phase_voltage and line_current accept. */
  predicate ValidConnection(connection: string) {
    IsStar(connection) || IsDelta(connection)
  }

  /** phase_voltage: line voltage over sqrt(3) for star, unchanged for delta, ValueError otherwise. */
  function PhaseVoltage(tr: Transcendentals, lineVoltage: real, connection: string): (r: Result<real>)
    requires tr.Valid()
    ensures r.Ok? <==> ValidConnection(connection)
    ensures r.Err? ==> r.error == InvalidConnection
    ensures IsStar(connection) ==> 3.0 * r.value * r.value == lineVoltage * lineVoltage
                                   && (r.value < 0.0 <==> lineVoltage < 0.0)
    ensures IsDelta(connection) ==> r.value == lineVoltage
  {
    if IsStar(connection) then
      tr.SqrtThree();
      StarDivision(lineVoltage, tr.sqrt(3.0));
      Ok(lineVoltage / tr.sqrt(3.0))
    else if IsDelta(connection) then Ok(lineVoltage)
    else Err(InvalidConnection)
  }

  lemma StarDivision(v: real, s: real)
    requires s > 0.0 && s * s == 3.0
    ensures 3.0 * (v / s) * (v / s) == v * v
    ensures v / s < 0.0 <==> v < 0.0
  {
    var q := v / s;
    assert q * s == v;
    assert v * v == (q * s) * (q * s) == q * q * (s * s);
  }

  /** line_current: phase current unchanged for star, times sqrt(3) for delta, ValueError otherwise. */
  function LineCurrent(tr: Transcendentals, phaseCurrent: real, connection: string): (r: Result<real>)
    requires tr.Valid()
    ensures r.Ok? <==> ValidConnection(connection)
    ensures r.Err? ==> r.error == InvalidConnection
    ensures IsStar(connection) ==> r.value == phaseCurrent
    ensures IsDelta(connection) ==> r.value * r.value == 3.0 * phaseCurrent * phaseCurrent
                                    && (r.value < 0.0 <==> phaseCurrent < 0.0)
  {
    if IsStar(connection) then Ok(phaseCurrent)
    else if IsDelta(connection) then
      tr.SqrtThree();
      DeltaProduct(phaseCurrent, tr.sqrt(3.0));
      Ok(phaseCurrent * tr.sqrt(3.0))
    else Err(InvalidConnection)
  }

  lemma DeltaProduct(i: real, s: real)
    requires s > 0.0 && s * s == 3.0
    ensures (i * s) * (i * s) == 3.0 * i * i
    ensures i * s < 0.0 <==> i < 0.0
  {
    assert (i * s) * (i * s) == i * i * (s * s);
  }

  /** Three-phase power is the same counted per phase or per line: for either connection,
      3 · V_phase · I_phase = sqrt(3) · V_line · I_line. */
  lemma ThreePhasePowerInvariant(tr: Transcendentals, lineVoltage: real, phaseCurrent: real, connection: string)
    requires tr.Valid() && ValidConnection(connection)
    ensures 3.0 * PhaseVoltage(tr, lineVoltage, connection).value * phaseCurrent
            == tr.sqrt(3.0) * lineVoltage * LineCurrent(tr, phaseCurrent, connection).value
  {
    tr.SqrtThree();
    var s := tr.sqrt(3.0);
    if IsStar(connection) {
      var v := lineVoltage / s;
      assert v * s == lineVoltage;
      var vi := v * phaseCurrent;
      assert s * (v * s) * phaseCurrent == (s * s) * vi;
      MultiplyEqual(s * s, 3.0, vi);
    } else {
      assert s * lineVoltage * (phaseCurrent * s) == (s * s) * lineVoltage * phaseCurrent;
    }
  }

  lemma MultiplyEqual(a: real, b: real, c: real)
    requires a == b
    ensures a * c == b * c
  {
  }

  // ---------------------------------------------------------------- power factor

  /** The power-factor classes and the labels the simulator reports for them. */
  datatype PfType = Unity | Inductive | Capacitive
  {
    function Label(): string {
      match this
      case Unity => "unidad"
      case Inductive => "inductivo"
      case Capacitive => "capacitivo"
    }
  }

  /** power_factor_correction: the class decided by the sign of the current angle minus the
      voltage angle (a lagging current is inductive). */
  function PowerFactorCorrection(currentAngle: real, voltageAngle: real): (r: PfType)
    ensures r == Unity <==> currentAngle == voltageAngle
    ensures r == Inductive <==> currentAngle > voltageAngle
    ensures r == Capacitive <==> currentAngle < voltageAngle
  {
    var phi := currentAngle - voltageAngle;
    if phi > 0.0 then Inductive
    else if phi < 0.0 then Capacitive
    else Unity
  }

  /** Exchanging the two angles exchanges inductive and capacitive and keeps unity. */
  lemma PowerFactorCorrectionSwap(a: real, b: real)
    ensures PowerFactorCorrection(b, a) ==
      match PowerFactorCorrection(a, b)
      case Inductive => Capacitive
      case Capacitive => Inductive
      case Unity => Unity
  {
  }

  /** Clamp to [-1, 1], as min(1.0, max(-1.0, x)). */
  function Clamp(x: real): real {
    if x > 1.0 then 1.0 else if x < -1.0 then -1.0 else x
  }

  /** calculate_power_factor(P, S): the magnitude of P/S clamped to at most 1, classed by the
      clamped ratio; (1.0, unity) when the apparent power is zero. */
  function CalculatePowerFactor(active: real, apparent: real): (r: (real, PfType))
    ensures 0.0 <= r.0 <= 1.0
    ensures apparent == 0.0 ==> r == (1.0, Unity)
    ensures apparent != 0.0 ==>
      var ratio := active / apparent;
      && r.0 == (if ratio < 0.0 then (if ratio < -1.0 then 1.0 else -ratio) else (if ratio > 1.0 then 1.0 else ratio))
      && (r.1 == Unity <==> ratio >= 1.0)
      && (r.1 == Inductive <==> 0.0 <= ratio < 1.0)
      && (r.1 == Capacitive <==> ratio < 0.0)
    ensures r.1 == Unity ==> r.0 == 1.0
  {
    if apparent == 0.0 then (1.0, Unity)
    else
      var pf := Clamp(active / apparent);
      if pf >= 0.0 then (pf, if pf < 1.0 then Inductive else Unity)
      else (-pf, Capacitive)
  }

  /** The example the smoke tests print: 1000 W over 1200 VA is 5/6, inductive. */
  lemma PowerFactorExample()
    ensures CalculatePowerFactor(1000.0, 1200.0) == (5.0 / 6.0, Inductive)
  {
  }

  // ---------------------------------------------------------------- angle normalisation

  /** The number of whole turns normalize_angle removes: the ceiling of (a - 180) / 360. */
  function Turns(a: real): int {
    -((180.0 - a) / 360.0).Floor
  }

  /** The representative of a modulo 360 in (-180, 180]. */
  function WrapAngle(a: real): (r: real)
    ensures -180.0 < r <= 180.0
  {
    var q := (180.0 - a) / 360.0;
    assert (q.Floor as real) <= q < (q.Floor as real) + 1.0;
    a - 360.0 * (Turns(a) as real)
  }

  /** The representative is unique: an angle in (-180, 180] that differs from a by whole turns
      is WrapAngle(a). */
  lemma WrapAngleUnique(a: real, r: real, k: int)
    requires -180.0 < r <= 180.0 && r == a - 360.0 * (k as real)
    ensures r == WrapAngle(a) && k == Turns(a)
  {
    var q := (180.0 - a) / 360.0;
    // q = (180 - r) / 360 - k with (180 - r) / 360 in [0, 1), so floor(q) = -k
    assert q == (180.0 - r) / 360.0 - (k as real);
    assert 0.0 <= (180.0 - r) / 360.0 < 1.0;
    assert q.Floor == -k;
  }

  /** Angles already in (-180, 180] are fixed, so normalisation is idempotent. */
  lemma WrapAngleFixes(a: real)
    requires -180.0 < a <= 180.0
    ensures WrapAngle(a) == a
    ensures WrapAngle(WrapAngle(a)) == WrapAngle(a)
  {
    WrapAngleUnique(a, a, 0);
  }

  /** Whole turns do not change the normalised angle, and the normalised angle differs from
      the input by whole turns. */
  lemma WrapAnglePeriodic(a: real, k: int)
    ensures WrapAngle(a + 360.0 * (k as real)) == WrapAngle(a)
    ensures WrapAngle(WrapAngle(a)) == WrapAngle(a)
  {
    var r := WrapAngle(a);
    var t := Turns(a);
    WrapAngleUnique(a + 360.0 * (k as real), r, t + k);
    WrapAngleFixes(r);
  }

  /** normalize_angle: subtract 360 while above 180, then add 360 while at or below -180. */
  method NormalizeAngle(angleDeg: real) returns (r: real)
    ensures r == WrapAngle(angleDeg)
  {
    r := angleDeg;
    ghost var k: int := 0;
    while r > 180.0
      invariant r == angleDeg - 360.0 * (k as real)
      decreases (r - 180.0).Floor
    {
      r := r - 360.0;
      k := k + 1;
    }
    while r <= -180.0
      invariant r == angleDeg - 360.0 * (k as real)
      invariant r <= 180.0
      decreases (-180.0 - r).Floor
    {
      r := r + 360.0;
      k := k - 1;
    }
    WrapAngleUnique(angleDeg, r, k);
  }

  // ---------------------------------------------------------------- RMS and peak

  /** calculate_rms: from a peak value, the value of the same sign whose square is half the
      peak's square; a value already RMS is returned as is. */
  function CalculateRms(tr: Transcendentals, value: real, isPeak: bool): (r: real)
    requires tr.Valid()
    ensures isPeak ==> 2.0 * (r * r) == value * value && (0.0 < r <==> 0.0 < value)
    ensures !isPeak ==> r == value
  {
    tr.SqrtTwo();
    if isPeak then value / tr.sqrt(2.0) else value
  }

  /** calculate_peak: from an RMS value, the value of the same sign whose square is twice the
      RMS value's square; a value already peak is returned as is. */
  function CalculatePeak(tr: Transcendentals, value: real, isRms: bool): (r: real)
    requires tr.Valid()
    ensures isRms ==> r * r == 2.0 * (value * value) && (0.0 < r <==> 0.0 < value)
    ensures !isRms ==> r == value
  {
    tr.SqrtTwo();
    if isRms then value * tr.sqrt(2.0) else value
  }

  /** Converting a peak value to RMS and back, or RMS to peak and back, is the identity;
      a sinusoid's peak is sqrt(2) times its RMS value. */
  lemma RmsPeakRoundTrip(tr: Transcendentals, v: real, flag: bool)
    requires tr.Valid()
    ensures CalculatePeak(tr, CalculateRms(tr, v, flag), flag) == v
    ensures CalculateRms(tr, CalculatePeak(tr, v, flag), flag) == v
  {
    tr.SqrtTwo();
    var s := tr.sqrt(2.0);
    if flag {
      assert v / s * s == v;
      assert v * s / s == v;
      assert (v * s) * (v * s) == v * v * (s * s);
    }
  }
}

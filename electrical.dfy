/**
 * Alternating-current quantities: phase normalisation into (-pi, pi] radians and the AC voltage
 * constructor (frequency check, amplitude from the RMS value).
 */
module ElectricalQuantities {
  import opened Wrappers
  import opened Units
  import opened Conversion
  import opened Quantities

  /** `math.pi`, the double closest to pi. */
  const PI: real := 3.141592653589793
  const TWO_PI: real := 2.0 * PI
  const ABS_TOLERANCE_FROM_ZERO: real := 0.000001
  const SQRT_2: real := 1.4142135623730950488

  /** The principal representative of an angle: the one value in (-pi, pi] that differs from
      `x` by a whole number of turns. */
  function Principal(x: real): (y: real)
    ensures -PI < y <= PI
    ensures y == x + TWO_PI * ((PI - x) / TWO_PI).Floor as real
  {
    var k := ((PI - x) / TWO_PI).Floor;
    assert k as real <= (PI - x) / TWO_PI < k as real + 1.0;
    x + TWO_PI * k as real
  }

  /** Two values in (-pi, pi] that differ by whole turns are equal. */
  lemma PrincipalUnique(x: real, y: real, turns: int)
    requires -PI < y <= PI && y == x + TWO_PI * turns as real
    ensures y == Principal(x)
  {
    var k := ((PI - x) / TWO_PI).Floor;
    var p := Principal(x);
    assert y - p == TWO_PI * turns as real - TWO_PI * k as real;
    WholeTurnsApart(y - p, turns - k);
  }

  /** A difference of whole turns strictly between -2 pi and 2 pi is no turn at all. */
  lemma WholeTurnsApart(d: real, m: int)
    requires d == TWO_PI * m as real && -TWO_PI < d < TWO_PI
    ensures m == 0
  {
    WholeTurnsBound(m);
  }

  /** A nonzero number of whole turns is at least one turn away from zero. */
  lemma WholeTurnsBound(m: int)
    ensures m >= 1 ==> TWO_PI * m as real >= TWO_PI
    ensures m <= -1 ==> TWO_PI * m as real <= -TWO_PI
  {
    if m >= 1 {
      assert TWO_PI * m as real == TWO_PI + TWO_PI * (m - 1) as real;
    } else if m <= -1 {
      assert TWO_PI * m as real == -TWO_PI + TWO_PI * (m + 1) as real;
    }
  }

  /** An angle already in (-pi, pi] is its own representative, and normalising is idempotent. */
  lemma PrincipalFixes(x: real)
    ensures -PI < x <= PI ==> Principal(x) == x
    ensures Principal(Principal(x)) == Principal(x)
  {
    if -PI < x <= PI {
      PrincipalUnique(x, x, 0);
    }
    PrincipalUnique(Principal(x), Principal(x), 0);
  }

  /** The two loops of `normalize_phase`: add a turn while the angle is at most -pi, then take one
      off while it exceeds pi. */
  method NormalizeRadians(x: real) returns (y: real)
    ensures -PI < y <= PI
    ensures y == Principal(x)
  {
    y := x;
    ghost var turns: int := 0;
    while y <= -PI
      invariant y == x + TWO_PI * turns as real
      invariant turns >= 0 && (turns > 0 ==> y <= PI)
      decreases (-y).Floor
    {
      y := y + 2.0 * PI;
      turns := turns + 1;
    }
    while y > PI
      invariant y == x + TWO_PI * turns as real
      invariant y > -PI
      decreases y.Floor
    {
      y := y - 2.0 * PI;
      turns := turns - 1;
    }
    PrincipalUnique(x, y, turns);
  }

  /** What `normalize_phase` leaves in the angle: its value converted to radians, normalised, and
      converted back into its own unit, through the angle conversion table. */
  function NormalizedPhase(cat: Catalog, phase: Quantity): (r: Result<Quantity>)
    ensures r.Success? ==> r.value.kind == phase.kind && r.value.unit == phase.unit
    ensures var table := TableOf(cat, Angle);
      phase.unit.symbol !in table ==> r == Failure(ValueError("Unknown from unit: " + UnitString(phase.unit)))
    ensures var table := TableOf(cat, Angle);
      phase.unit.symbol in table && "rad" !in table ==> r == Failure(ValueError("Unknown to unit: " + "rad"))
    ensures var table := TableOf(cat, Angle);
      var c := Convert(table, phase.value, phase.unit.symbol, "rad");
      phase.unit.symbol in table && "rad" in table && c.Failure? ==> r == Failure(c.error)
  {
    var table := TableOf(cat, Angle);
    var rad :- ConvertShown(table, phase.value, phase.unit.symbol, UnitString(phase.unit), "rad", "rad");
    var back :- ConvertShown(table, Principal(rad), "rad", "rad", phase.unit.symbol, UnitString(phase.unit));
    Success(phase.(value := back))
  }

  /** `normalize_phase`; the caller's angle object receives the new value, so the model returns
      the updated angle. */
  method NormalizePhase(cat: Catalog, phase: Quantity) returns (r: Result<Quantity>)
    ensures r == NormalizedPhase(cat, phase)
  {
    var table := TableOf(cat, Angle);
    var rad := ConvertShown(table, phase.value, phase.unit.symbol, UnitString(phase.unit), "rad", "rad");
    if rad.Failure? {
      return Failure(rad.error);
    }
    var y := NormalizeRadians(rad.value);
    var back := ConvertShown(table, y, "rad", "rad", phase.unit.symbol, UnitString(phase.unit));
    if back.Failure? {
      return Failure(back.error);
    }
    return Success(phase.(value := back.value));
  }

  /** With nonzero factors for the angle's unit and for radians, the normalised angle, read in
      radians, lies in (-pi, pi], and normalising it again changes nothing. */
  lemma {:induction false} NormalizedPhaseIdempotent(cat: Catalog, phase: Quantity)
    requires var table := TableOf(cat, Angle);
      phase.unit.symbol in table && "rad" in table && table[phase.unit.symbol] != 0.0 && table["rad"] != 0.0
    ensures NormalizedPhase(cat, phase).Success?
    ensures var table := TableOf(cat, Angle);
      var rad := Convert(table, NormalizedPhase(cat, phase).value.value, phase.unit.symbol, "rad").value;
      -PI < rad <= PI && rad == Principal(Convert(table, phase.value, phase.unit.symbol, "rad").value)
    ensures NormalizedPhase(cat, NormalizedPhase(cat, phase).value) == NormalizedPhase(cat, phase)
  {
    var table := TableOf(cat, Angle);
    var u := phase.unit.symbol;
    var rad := Convert(table, phase.value, u, "rad").value;
    var p := Principal(rad);
    var back := Convert(table, p, "rad", u).value;
    ConvertRoundTrip(table, p, "rad", u);
    assert Convert(table, back, u, "rad") == Success(p);
    PrincipalFixes(rad);
  }

  /** A phase in radians already in (-pi, pi] is left as it is. */
  lemma NormalizedPhaseKeepsPrincipal(cat: Catalog, phase: Quantity)
    requires phase.unit.symbol == "rad" && "rad" in TableOf(cat, Angle) && TableOf(cat, Angle)["rad"] != 0.0
    requires -PI < phase.value <= PI
    ensures NormalizedPhase(cat, phase) == Success(phase)
  {
    var table := TableOf(cat, Angle);
    ConvertIdentity(table, phase.value, "rad");
    PrincipalFixes(phase.value);
  }

  // ---------------------------------------------------------------------------------------
  // AC voltage

  /** The fields `AC_Voltage.__init__` sets. */
  datatype ACVoltage = ACVoltage(rms: Quantity, amplitude: Quantity, frequency: Quantity, phase: Quantity)

  /** `math.isclose(f, 0.0, abs_tol=1e-6, rel_tol=0)`. */
  predicate CloseToZero(f: real) {
    (if f < 0.0 then -f else f) <= ABS_TOLERANCE_FROM_ZERO
  }

  const FrequencyMessage := "Frequency must be positive and different from zero (0)"

  /** The constructor with an explicit phase: the frequency is checked, the amplitude is the RMS
      value times the square root of two in the RMS unit, and the phase is normalised. */
  function ACVoltageOf(cat: Catalog, rms: Quantity, frequency: Quantity, phase: Quantity): (r: Result<ACVoltage>)
    ensures frequency.value <= ABS_TOLERANCE_FROM_ZERO ==> r == Failure(ValueError(FrequencyMessage))
    ensures frequency.value > ABS_TOLERANCE_FROM_ZERO ==> r.Success? == NormalizedPhase(cat, phase).Success?
    ensures frequency.value > ABS_TOLERANCE_FROM_ZERO && NormalizedPhase(cat, phase).Failure? ==>
      r == Failure(NormalizedPhase(cat, phase).error)
    ensures r.Success? ==> r.value.amplitude == Quantity(Voltage, rms.value * SQRT_2, rms.unit)
    ensures r.Success? ==> r.value.rms == rms && r.value.frequency == frequency
    ensures r.Success? ==> r.value.phase == NormalizedPhase(cat, phase).value
  {
    if frequency.value < 0.0 || CloseToZero(frequency.value) then Failure(ValueError(FrequencyMessage))
    else
      var amplitude := Quantity(Voltage, rms.value * SQRT_2, rms.unit);
      var normalized :- NormalizedPhase(cat, phase);
      Success(ACVoltage(rms, amplitude, frequency, normalized))
  }

  /** The frequency test rejects exactly the frequencies up to the tolerance. */
  lemma FrequencyTest(f: real)
    ensures (f < 0.0 || CloseToZero(f)) <==> f <= ABS_TOLERANCE_FROM_ZERO
  {
  }

  /** The peak of a 230 V RMS mains voltage, in the RMS unit. */
  lemma MainsAmplitude(cat: Catalog, frequency: Quantity, phase: Quantity)
    requires frequency.value == 50.0
    requires NormalizedPhase(cat, phase).Success?
    ensures ACVoltageOf(cat, Quantity(Voltage, 230.0, Volt), frequency, phase).value.amplitude.value == 230.0 * SQRT_2
  {
  }

  /** `AC_Voltage(rms, frequency)` as written: the default phase is the integer 0, so the
      attribute access in `normalize_phase` fails whenever the frequency is accepted. */
  function ACVoltageAsWritten(cat: Catalog, rms: Quantity, frequency: Quantity, phase: Option<Quantity>): (r: Result<ACVoltage>)
    ensures phase.Some? ==> r == ACVoltageOf(cat, rms, frequency, phase.value)
  {
    if phase.Some? then ACVoltageOf(cat, rms, frequency, phase.value)
    else if frequency.value < 0.0 || CloseToZero(frequency.value) then Failure(ValueError(FrequencyMessage))
    else Failure(AttributeError("'int' object has no attribute 'unit'"))
  }

  /** Omitting the phase never yields an AC voltage. */
  lemma DefaultPhaseFails(cat: Catalog, rms: Quantity, frequency: Quantity)
    ensures ACVoltageAsWritten(cat, rms, frequency, None).Failure?
    ensures frequency.value > ABS_TOLERANCE_FROM_ZERO ==>
      ACVoltageAsWritten(cat, rms, frequency, None) == Failure(AttributeError("'int' object has no attribute 'unit'"))
  {
  }

  /** The corrected constructor: an omitted phase is an angle of 0 in the default unit. */
  function ACVoltageWithDefault(cat: Catalog, rms: Quantity, frequency: Quantity, phase: Option<Quantity>): (r: Result<ACVoltage>)
    ensures phase.Some? ==> r == ACVoltageAsWritten(cat, rms, frequency, phase)
    ensures phase.None? ==> r == ACVoltageOf(cat, rms, frequency, Quantity(Angle, 0.0, Degree))
  {
    ACVoltageOf(cat, rms, frequency, phase.GetOr(WithDefaultUnit(Angle, 0.0)))
  }

  /** With the corrected default, an accepted frequency and an angle table holding degrees and
      radians, omitting the phase gives an AC voltage with phase 0 degrees. */
  lemma DefaultPhaseIsZero(cat: Catalog, rms: Quantity, frequency: Quantity)
    requires frequency.value > ABS_TOLERANCE_FROM_ZERO
    requires "deg" in TableOf(cat, Angle) && "rad" in TableOf(cat, Angle)
    requires TableOf(cat, Angle)["deg"] != 0.0 && TableOf(cat, Angle)["rad"] != 0.0
    ensures ACVoltageWithDefault(cat, rms, frequency, None).Success?
    ensures ACVoltageWithDefault(cat, rms, frequency, None).value.phase == Quantity(Angle, 0.0, Degree)
  {
    var table := TableOf(cat, Angle);
    assert Convert(table, 0.0, "deg", "rad") == Success(0.0);
    PrincipalFixes(0.0);
    assert Convert(table, 0.0, "rad", "deg") == Success(0.0);
  }

  /** The constructor as a method, normalising the phase with the loops. */
  method NewACVoltage(cat: Catalog, rms: Quantity, frequency: Quantity, phase: Quantity) returns (r: Result<ACVoltage>)
    ensures r == ACVoltageOf(cat, rms, frequency, phase)
  {
    if frequency.value < 0.0 || CloseToZero(frequency.value) {
      return Failure(ValueError(FrequencyMessage));
    }
    var amplitude := Quantity(Voltage, rms.value * SQRT_2, rms.unit);
    var normalized := NormalizePhase(cat, phase);
    if normalized.Failure? {
      return Failure(normalized.error);
    }
    return Success(ACVoltage(rms, amplitude, frequency, normalized.value));
  }
}

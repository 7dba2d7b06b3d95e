/**
 * Typed physical quantities: a kind (the concrete BaseQuantity subclass), a value and a unit.
 * Each kind converts through the linear table of its quantity type; the tables arrive as a
 * catalogue indexed by quantity-type name.
 */
module Quantities {
  import opened Wrappers
  import opened Units
  import opened Conversion

  /** The concrete subclasses of BaseQuantity (temperature is not part of this model). */
  datatype Kind =
    | Length | Mass | Time | Power | Frequency | Force | Energy | ElectricCharge
    | Voltage | ElectricCurrent | Resistance | Angle | Volume | MassFlowRate

  /** The `quantity_type` each subclass hands to its conversion manager. */
  function QuantityType(k: Kind): string {
    match k
    case Length => "length"
    case Mass => "mass"
    case Time => "time"
    case Power => "power"
    case Frequency => "frequency"
    case Force => "force"
    case Energy => "energy"
    case ElectricCharge => "electric_charge"
    case Voltage => "voltage"
    case ElectricCurrent => "electric_current"
    case Resistance => "resistance"
    case Angle => "angle"
    case Volume => "volume"
    case MassFlowRate => "mass_flow_rate"
  }

  /** The subclass name, as `type(self)` prints it. */
  function ClassName(k: Kind): string {
    match k
    case Length => "LengthQuantity"
    case Mass => "MassQuantity"
    case Time => "TimeQuantity"
    case Power => "PowerQuantity"
    case Frequency => "FrequencyQuantity"
    case Force => "ForceQuantity"
    case Energy => "EnergyQuantity"
    case ElectricCharge => "ElectricChargeQuantity"
    case Voltage => "VoltageQuantity"
    case ElectricCurrent => "ElectricCurrentQuantity"
    case Resistance => "ResistanceQuantity"
    case Angle => "AngleQuantity"
    case Volume => "VolumeQuantity"
    case MassFlowRate => "MassFlowRateQuantity"
  }

  function TypeRepr(k: Kind): string {
    "<class 'modules.physical_quantities." + ClassName(k) + "'>"
  }

  /** The loaded conversion tables, by quantity type. */
  type Catalog = string -> Table

  function TableOf(cat: Catalog, k: Kind): Table {
    cat(QuantityType(k))
  }

  // Default units of the subclasses' constructors (SI units; the unit catalogue itself is
  // not part of this model, so only name, symbol and dimensions are fixed here).
  const Meter := Unit("meter", "m", [("L", 1)])
  const Kilogram := Unit("kilogram", "kg", [("M", 1)])
  const Second := Unit("second", "s", [("T", 1)])
  const Watt := Unit("watt", "W", [("M", 1), ("L", 2), ("T", -3)])
  const Hertz := Unit("hertz", "Hz", [("T", -1)])
  const Newton := Unit("newton", "N", [("M", 1), ("L", 1), ("T", -2)])
  const Joule := Unit("joule", "J", [("M", 1), ("L", 2), ("T", -2)])
  const Coulomb := Unit("coulomb", "C", [("I", 1), ("T", 1)])
  const Volt := Unit("volt", "V", [("M", 1), ("L", 2), ("T", -3), ("I", -1)])
  const Ampere := Unit("ampere", "A", [("I", 1)])
  const Ohm := Unit("ohm", "Ω", [("M", 1), ("L", 2), ("T", -3), ("I", -2)])
  const Degree := Unit("degree", "deg", [])
  const CubicMeter := Unit("cubic meter", "m^3", [("L", 3)])
  const KilogramPerSecond := Unit("kilogram per second", "kg/s", [("M", 1), ("T", -1)])

  /** The default unit of each subclass constructor. */
  function DefaultUnit(k: Kind): Unit {
    match k
    case Length => Meter
    case Mass => Kilogram
    case Time => Second
    case Power => Watt
    case Frequency => Hertz
    case Force => Newton
    case Energy => Joule
    case ElectricCharge => Coulomb
    case Voltage => Volt
    case ElectricCurrent => Ampere
    case Resistance => Ohm
    case Angle => Degree
    case Volume => CubicMeter
    case MassFlowRate => KilogramPerSecond
  }

  /** Volt times ampere has the dimensions of the watt. */
  lemma VoltTimesAmpereIsWatt()
    ensures Compatible(Multiply(Volt, UnitArg(Ampere)).value, Watt)
  {
    assert Volt.dims == Watt.dims + [("I", -1)];
    assert "I" !in Keys(Watt.dims);
    CombineLastLetter(Watt.dims, "I", -1, 1, Times);
  }

  /** Watt times second has the dimensions of the joule. */
  lemma WattTimesSecondIsJoule()
    ensures Compatible(Multiply(Watt, UnitArg(Second)).value, Joule)
  {
    ProductExponents(Watt.dims, Second.dims);
    assert forall k :: Get(Watt.dims, k) + Get(Second.dims, k) == Get(Joule.dims, k);
    SameExponentsSameMap(Product(Watt.dims, Second.dims), Joule.dims);
  }

  /** Ampere times second has the dimensions of the coulomb. */
  lemma AmpereTimesSecondIsCoulomb()
    ensures Compatible(Multiply(Ampere, UnitArg(Second)).value, Coulomb)
  {
    ProductExponents(Ampere.dims, Second.dims);
    assert forall k :: Get(Ampere.dims, k) + Get(Second.dims, k) == Get(Coulomb.dims, k);
    SameExponentsSameMap(Product(Ampere.dims, Second.dims), Coulomb.dims);
  }

  /** Volt over ampere has the dimensions of the ohm. */
  lemma VoltOverAmpereIsOhm()
    ensures Compatible(Divide(Volt, UnitArg(Ampere)).value, Ohm)
  {
    assert Volt.dims == Watt.dims + [("I", -1)];
    assert Ohm.dims == Watt.dims + [("I", -2)];
    assert "I" !in Keys(Watt.dims);
    CombineLastLetter(Watt.dims, "I", -1, 1, Over);
    assert Divide(Volt, UnitArg(Ampere)).value.dims == Quotient(Volt.dims, Ampere.dims) == Ohm.dims;
  }

  /** A quantity: `type(self)`, `_value` and `_unit`. */
  datatype Quantity = Quantity(kind: Kind, value: real, unit: Unit)

  /** The class being instantiated: BaseQuantity itself or one of its subclasses. */
  datatype QuantityClass = BaseQuantity | Concrete(kind: Kind)

  /** `BaseQuantity.__init__`. */
  function New(cls: QuantityClass, value: real, unit: Unit): (r: Result<Quantity>)
    ensures r.Failure? <==> cls.BaseQuantity?
    ensures r.Failure? ==> r.error == TypeError("BaseQuantity cannot be instantiated directly.")
    ensures r.Success? ==> r.value.kind == cls.kind && r.value.value == value && r.value.unit == unit
  {
    if cls.BaseQuantity? then Failure(TypeError("BaseQuantity cannot be instantiated directly."))
    else Success(Quantity(cls.kind, value, unit))
  }

  /** A subclass constructor called without a unit. */
  function WithDefaultUnit(k: Kind, value: real): Quantity {
    Quantity(k, value, DefaultUnit(k))
  }

  /** The right operand of a binary operation, which Python does not constrain. */
  datatype Operand = QuantityArg(q: Quantity) | NonQuantity

  /** `BaseQuantity.convert_to`: the same unit gives the quantity back unconverted, an
      incompatible one is rejected, and otherwise the manager converts by unit symbol; its
      unknown-unit messages print the units as `str` renders them. */
  function ConvertTo(cat: Catalog, q: Quantity, target: Unit): (r: Result<Quantity>)
    ensures SameUnit(q.unit, target) ==> r == Success(q)
    ensures !SameUnit(q.unit, target) && !Compatible(q.unit, target) ==>
      r == Failure(ValueError("Cannot convert between incompatible units: " + UnitString(q.unit) + " and " + UnitString(target)))
    ensures r.Success? ==> r.value.kind == q.kind && r.value.unit == (if SameUnit(q.unit, target) then q.unit else target)
    ensures !SameUnit(q.unit, target) && Compatible(q.unit, target) ==>
      var table := TableOf(cat, q.kind);
      if q.unit.symbol !in table then r == Failure(ValueError("Unknown from unit: " + UnitString(q.unit)))
      else if target.symbol !in table then r == Failure(ValueError("Unknown to unit: " + UnitString(target)))
      else
        var c := Convert(table, q.value, q.unit.symbol, target.symbol);
        (r.Failure? <==> c.Failure?) && (c.Failure? ==> r.error == c.error)
    ensures r.Success? && !SameUnit(q.unit, target) ==>
      var table := TableOf(cat, q.kind);
      q.unit.symbol in table && target.symbol in table &&
      r.value.value * table[target.symbol] == q.value * table[q.unit.symbol]
  {
    if SameUnit(q.unit, target) then Success(q)
    else if !Compatible(q.unit, target) then
      Failure(ValueError("Cannot convert between incompatible units: " + UnitString(q.unit) + " and " + UnitString(target)))
    else
      var table := TableOf(cat, q.kind);
      if q.unit.symbol !in table then Failure(ValueError("Unknown from unit: " + UnitString(q.unit)))
      else if target.symbol !in table then Failure(ValueError("Unknown to unit: " + UnitString(target)))
      else
        var converted :- Convert(table, q.value, q.unit.symbol, target.symbol);
        Success(Quantity(q.kind, converted, target))
  }

  /** Factors of both units known and nonzero in the kind's table. */
  predicate Convertible(cat: Catalog, k: Kind, u: Unit, v: Unit) {
    var table := TableOf(cat, k);
    u.symbol in table && v.symbol in table && table[u.symbol] != 0.0 && table[v.symbol] != 0.0
  }

  /** Converting into a compatible unit and back gives the original quantity. */
  lemma ConvertToRoundTrip(cat: Catalog, q: Quantity, target: Unit)
    requires Compatible(q.unit, target) && Convertible(cat, q.kind, q.unit, target)
    ensures ConvertTo(cat, q, target).Success?
    ensures ConvertTo(cat, ConvertTo(cat, q, target).value, q.unit) == Success(q)
  {
    if !SameUnit(q.unit, target) {
      ConvertRoundTrip(TableOf(cat, q.kind), q.value, q.unit.symbol, target.symbol);
    }
  }

  /** `_assert_compatible`: a non-quantity, then a different subclass, then incompatible
      units are rejected, in this order. */
  function AssertCompatible(a: Quantity, other: Operand): (r: Outcome)
    ensures r.Pass? <==> other.QuantityArg? && other.q.kind == a.kind && Compatible(a.unit, other.q.unit)
    ensures other.NonQuantity? ==> r == Fail(TypeError("Can only operate on another BaseQuantity."))
    ensures other.QuantityArg? && other.q.kind != a.kind ==>
      r == Fail(TypeError("Cannot operate on different quantity types: " + TypeRepr(a.kind) + " and " + TypeRepr(other.q.kind)))
    ensures other.QuantityArg? && other.q.kind == a.kind && !Compatible(a.unit, other.q.unit) ==>
      r == Fail(ValueError("Cannot operate on incompatible units: " + UnitString(a.unit) + " and " + UnitString(other.q.unit)))
  {
    match other
    case NonQuantity => Fail(TypeError("Can only operate on another BaseQuantity."))
    case QuantityArg(b) =>
      if b.kind != a.kind then
        Fail(TypeError("Cannot operate on different quantity types: " + TypeRepr(a.kind) + " and " + TypeRepr(b.kind)))
      else if !Compatible(a.unit, b.unit) then
        Fail(ValueError("Cannot operate on incompatible units: " + UnitString(a.unit) + " and " + UnitString(b.unit)))
      else Pass
  }

  /** `__add__` (plus) and `__sub__`: checks, then the right operand in the left operand's
      unit. */
  function AddOrSub(cat: Catalog, a: Quantity, other: Operand, plus: bool): Result<Quantity> {
    var checked := AssertCompatible(a, other);
    if checked.Fail? then Failure(checked.error) else
    var converted :- ConvertTo(cat, other.q, a.unit);
    Success(Quantity(a.kind, if plus then a.value + converted.value else a.value - converted.value, a.unit))
  }

  /** `a + b`. */
  function Add(cat: Catalog, a: Quantity, other: Operand): (r: Result<Quantity>)
    ensures AssertCompatible(a, other).Fail? ==> r == Failure(AssertCompatible(a, other).error)
    ensures AssertCompatible(a, other).Pass? ==> (r.Success? <==> ConvertTo(cat, other.q, a.unit).Success?)
    ensures AssertCompatible(a, other).Pass? && ConvertTo(cat, other.q, a.unit).Failure? ==>
      r == Failure(ConvertTo(cat, other.q, a.unit).error)
    ensures r.Success? ==> r.value.kind == a.kind && r.value.unit == a.unit
    ensures r.Success? && SameUnit(other.q.unit, a.unit) ==> r.value.value == a.value + other.q.value
    ensures r.Success? && !SameUnit(other.q.unit, a.unit) ==>
      var table := TableOf(cat, a.kind);
      a.unit.symbol in table && other.q.unit.symbol in table &&
      (r.value.value - a.value) * table[a.unit.symbol] == other.q.value * table[other.q.unit.symbol]
  {
    AddOrSub(cat, a, other, true)
  }

  /** `a - b`. */
  function Sub(cat: Catalog, a: Quantity, other: Operand): (r: Result<Quantity>)
    ensures AssertCompatible(a, other).Fail? ==> r == Failure(AssertCompatible(a, other).error)
    ensures AssertCompatible(a, other).Pass? ==> (r.Success? <==> ConvertTo(cat, other.q, a.unit).Success?)
    ensures AssertCompatible(a, other).Pass? && ConvertTo(cat, other.q, a.unit).Failure? ==>
      r == Failure(ConvertTo(cat, other.q, a.unit).error)
    ensures r.Success? ==> r.value.kind == a.kind && r.value.unit == a.unit
    ensures r.Success? && SameUnit(other.q.unit, a.unit) ==> r.value.value == a.value - other.q.value
    ensures r.Success? && !SameUnit(other.q.unit, a.unit) ==>
      var table := TableOf(cat, a.kind);
      a.unit.symbol in table && other.q.unit.symbol in table &&
      (a.value - r.value.value) * table[a.unit.symbol] == other.q.value * table[other.q.unit.symbol]
  {
    AddOrSub(cat, a, other, false)
  }

  /** Subtracting what was added gives the original quantity back. */
  lemma AddThenSub(cat: Catalog, a: Quantity, b: Quantity)
    requires Add(cat, a, QuantityArg(b)).Success?
    ensures Sub(cat, Add(cat, a, QuantityArg(b)).value, QuantityArg(b)) == Success(a)
  {
  }

  /** Adding quantities of one kind in one unit commutes. */
  lemma AddCommutesInOneUnit(cat: Catalog, a: Quantity, b: Quantity)
    requires a.kind == b.kind && a.unit == b.unit
    ensures Add(cat, a, QuantityArg(b)).Success?
    ensures Add(cat, a, QuantityArg(b)) == Add(cat, b, QuantityArg(a))
  {
  }

  /** `a * b`: no kind or unit check; the left operand's kind, the product unit and value.
      A non-quantity operand makes Python raise TypeError. */
  function Mul(a: Quantity, other: Operand): (r: Result<Quantity>)
    ensures r.Failure? <==> other.NonQuantity?
    ensures r.Failure? ==> r.error.TypeError?
    ensures r.Success? ==> r.value.kind == a.kind && r.value.value == a.value * other.q.value
    ensures r.Success? ==> r.value.unit == Multiply(a.unit, UnitArg(other.q.unit)).value
  {
    match other
    case NonQuantity => Failure(TypeError("unsupported operand type(s) for *"))
    case QuantityArg(b) =>
      Success(Quantity(a.kind, a.value * b.value, Multiply(a.unit, UnitArg(b.unit)).value))
  }

  /** `a / b`: the quotient unit is built first, then a zero divisor raises ZeroDivisionError. */
  function Div(a: Quantity, other: Operand): (r: Result<Quantity>)
    ensures other.NonQuantity? ==> r.Failure? && r.error.TypeError?
    ensures other.QuantityArg? ==> (r.Failure? <==> other.q.value == 0.0)
    ensures other.QuantityArg? && r.Failure? ==> r.error == ZeroDivisionError
    ensures r.Success? ==> r.value.kind == a.kind && r.value.value * other.q.value == a.value
    ensures r.Success? ==> r.value.unit == Divide(a.unit, UnitArg(other.q.unit)).value
  {
    match other
    case NonQuantity => Failure(TypeError("unsupported operand type(s) for /"))
    case QuantityArg(b) =>
      var u := Divide(a.unit, UnitArg(b.unit)).value;
      if b.value == 0.0 then Failure(ZeroDivisionError)
      else Success(Quantity(a.kind, a.value / b.value, u))
  }

  /** Multiplying by a nonzero quantity and dividing by it again gives back the value, the
      kind and (ignoring entry order) the dimensions. */
  lemma MulThenDiv(a: Quantity, b: Quantity)
    requires b.value != 0.0
    requires DistinctKeys(a.unit.dims) && DistinctKeys(b.unit.dims) && NoZero(a.unit.dims)
    ensures Mul(a, QuantityArg(b)).Success?
    ensures Div(Mul(a, QuantityArg(b)).value, QuantityArg(b)).Success?
    ensures Div(Mul(a, QuantityArg(b)).value, QuantityArg(b)).value.value == a.value
    ensures Div(Mul(a, QuantityArg(b)).value, QuantityArg(b)).value.kind == a.kind
    ensures Compatible(Div(Mul(a, QuantityArg(b)).value, QuantityArg(b)).value.unit, a.unit)
  {
    var p := Mul(a, QuantityArg(b)).value;
    assert p.value == a.value * b.value;
    QuotientCancelsProduct(a.unit.dims, b.unit.dims);
  }

  /** The relation each comparison operator applies. */
  datatype Comparison = Eq | Lt | Gt {
    predicate Holds(x: real, y: real) {
      match this
      case Eq => x == y
      case Lt => x < y
      case Gt => x > y
    }
  }

  /** `_compare` with `__eq__`, `__lt__` or `__gt__`. A non-quantity is unequal to any quantity
      and not ordered against it; a failed conversion becomes "incompatible units". */
  function Compare(cat: Catalog, a: Quantity, other: Operand, c: Comparison): (r: Result<bool>)
    ensures other.NonQuantity? ==> (r == Success(false) <==> c == Eq)
    ensures other.NonQuantity? && c != Eq ==> r.Failure? && r.error.TypeError?
    ensures other.QuantityArg? && other.q.kind != a.kind ==>
      r == Failure(TypeError("Cannot compare different quantity types: " + TypeRepr(a.kind) + " and " + TypeRepr(other.q.kind)))
    ensures other.QuantityArg? && other.q.kind == a.kind ==>
      var conv := ConvertTo(cat, other.q, a.unit);
      (r.Failure? <==> conv.Failure?) &&
      (conv.Success? ==> r.value == c.Holds(a.value, conv.value.value)) &&
      (conv.Failure? && conv.error.ValueError? ==>
         r.error == ValueError("Cannot compare incompatible units: " + UnitString(a.unit) + " and " + UnitString(other.q.unit))) &&
      (conv.Failure? && !conv.error.ValueError? ==> r.error == conv.error)
  {
    match other
    case NonQuantity =>
      if c == Eq then Success(false)
      else Failure(TypeError("comparison not supported between a quantity and a non-quantity"))
    case QuantityArg(b) =>
      if b.kind != a.kind then
        Failure(TypeError("Cannot compare different quantity types: " + TypeRepr(a.kind) + " and " + TypeRepr(b.kind)))
      else
        match ConvertTo(cat, b, a.unit)
        case Failure(ValueError(_)) =>
          Failure(ValueError("Cannot compare incompatible units: " + UnitString(a.unit) + " and " + UnitString(b.unit)))
        case Failure(e) => Failure(e)
        case Success(converted) => Success(c.Holds(a.value, converted.value))
  }

  /** A quantity equals itself, and is neither less nor greater than itself. */
  lemma CompareReflexive(cat: Catalog, a: Quantity)
    ensures Compare(cat, a, QuantityArg(a), Eq) == Success(true)
    ensures Compare(cat, a, QuantityArg(a), Lt) == Success(false)
    ensures Compare(cat, a, QuantityArg(a), Gt) == Success(false)
  {
  }

  /** Whenever the comparison can be made, exactly one of ==, < and > holds. */
  lemma CompareTrichotomy(cat: Catalog, a: Quantity, b: Quantity)
    requires Compare(cat, a, QuantityArg(b), Eq).Success?
    ensures Compare(cat, a, QuantityArg(b), Lt).Success? && Compare(cat, a, QuantityArg(b), Gt).Success?
    ensures [Compare(cat, a, QuantityArg(b), Eq).value, Compare(cat, a, QuantityArg(b), Lt).value,
             Compare(cat, a, QuantityArg(b), Gt).value] in [[true, false, false], [false, true, false], [false, false, true]]
  {
  }

  /** With positive factors, `a < b` holds exactly when `b > a` does, although the two compare
      in different units. */
  lemma CompareConverse(cat: Catalog, a: Quantity, b: Quantity)
    requires a.kind == b.kind && Compatible(a.unit, b.unit)
    requires var table := TableOf(cat, a.kind);
      a.unit.symbol in table && b.unit.symbol in table && table[a.unit.symbol] > 0.0 && table[b.unit.symbol] > 0.0
    ensures Compare(cat, a, QuantityArg(b), Lt).Success? && Compare(cat, b, QuantityArg(a), Gt).Success?
    ensures Compare(cat, a, QuantityArg(b), Lt) == Compare(cat, b, QuantityArg(a), Gt)
  {
    var table := TableOf(cat, a.kind);
    var fa, fb := table[a.unit.symbol], table[b.unit.symbol];
    if !SameUnit(b.unit, a.unit) {
      assert !SameUnit(a.unit, b.unit);
      var bInA := ConvertTo(cat, b, a.unit).value.value;
      var aInB := ConvertTo(cat, a, b.unit).value.value;
      assert bInA * fa == b.value * fb;
      assert aInB * fb == a.value * fa;
      assert a.value < bInA <==> a.value * fa < bInA * fa;
      assert aInB < b.value <==> aInB * fb < b.value * fb;
    }
  }

  /** The value of a quantity in the unit named by a bare symbol, as `convert_to(q, 'V')` is
      used by the power budget: the same symbol gives the value, otherwise the table converts. */
  function ValueInSymbol(cat: Catalog, q: Quantity, symbol: string): (r: Result<real>)
    ensures q.unit.symbol == symbol ==> r == Success(q.value)
    ensures q.unit.symbol != symbol && r.Success? ==>
      var table := TableOf(cat, q.kind);
      q.unit.symbol in table && symbol in table && r.value * table[symbol] == q.value * table[q.unit.symbol]
    ensures q.unit.symbol != symbol ==> r == Convert(TableOf(cat, q.kind), q.value, q.unit.symbol, symbol)
  {
    if q.unit.symbol == symbol then Success(q.value)
    else Convert(TableOf(cat, q.kind), q.value, q.unit.symbol, symbol)
  }
}

/**
 * Components, DC power supplies and the power budget.
 *
 * A component derives the missing one of voltage, current and power from the two it is given.
 * A power supply keeps a list of (component, count) entries and recomputes its totals, in mA
 * and mW, with a loop after every change to the list. Supply constructors validate their
 * parameters; their checks are pure functions producing a `SupplySpec`, from which the
 * `PowerSupply` object is built.
 */
module PowerSystem {
  import opened Wrappers
  import opened Units
  import opened Conversion
  import opened Quantities

  // ---------------------------------------------------------------------------------------
  // Deriving the third electrical quantity

  /** Voltage, current and power of a component; None where Python holds None. */
  datatype Electrical = Electrical(voltage: Option<Quantity>, current: Option<Quantity>, power: Option<Quantity>)

  /** `compute_power`: volts times amperes, as a power in watts. */
  function PowerFrom(cat: Catalog, voltage: Quantity, current: Quantity): (r: Result<Quantity>)
    ensures r.Success? <==> ConvertTo(cat, voltage, Volt).Success? && ConvertTo(cat, current, Ampere).Success?
    ensures r.Success? ==> r.value.kind == Power && r.value.unit == Watt
    ensures r.Success? ==> r.value.value == ConvertTo(cat, voltage, Volt).value.value * ConvertTo(cat, current, Ampere).value.value
    ensures voltage.unit == Volt && current.unit == Ampere ==> r == Success(Quantity(Power, voltage.value * current.value, Watt))
  {
    var v := ConvertTo(cat, voltage, Volt);
    var i := ConvertTo(cat, current, Ampere);
    assert SameUnit(Volt, Volt) && SameUnit(Ampere, Ampere);
    if v.Failure? then Failure(v.error)
    else if i.Failure? then Failure(i.error)
    else
      assert voltage.unit == Volt && current.unit == Ampere ==> v.value == voltage && i.value == current;
      assert voltage.unit == Volt && current.unit == Ampere ==> v.value.value * i.value.value == voltage.value * current.value;
      assert DefaultUnit(Power) == Watt;
      Success(WithDefaultUnit(Power, v.value.value * i.value.value))
  }

  /** `compute_current`: watts over volts, as a current in amperes. */
  function CurrentFrom(cat: Catalog, power: Quantity, voltage: Quantity): (r: Result<Quantity>)
    ensures ConvertTo(cat, power, Watt).Failure? ==> r == Failure(ConvertTo(cat, power, Watt).error)
    ensures ConvertTo(cat, power, Watt).Success? && ConvertTo(cat, voltage, Volt).Success? ==>
      (r.Failure? <==> ConvertTo(cat, voltage, Volt).value.value == 0.0)
    ensures ConvertTo(cat, power, Watt).Success? && ConvertTo(cat, voltage, Volt).Failure? ==>
      r == Failure(ConvertTo(cat, voltage, Volt).error)
    ensures (ConvertTo(cat, power, Watt).Success? && ConvertTo(cat, voltage, Volt).Success? &&
             ConvertTo(cat, voltage, Volt).value.value == 0.0) ==> r == Failure(ZeroDivisionError)
    ensures r.Success? ==> r.value.kind == ElectricCurrent && r.value.unit == Ampere
    ensures r.Success? ==> (ConvertTo(cat, voltage, Volt).Success? && ConvertTo(cat, power, Watt).Success? &&
       r.value.value * ConvertTo(cat, voltage, Volt).value.value == ConvertTo(cat, power, Watt).value.value)
  {
    var p := ConvertTo(cat, power, Watt);
    var v := ConvertTo(cat, voltage, Volt);
    if p.Failure? then Failure(p.error)
    else if v.Failure? then Failure(v.error)
    else if v.value.value == 0.0 then Failure(ZeroDivisionError)
    else Success(WithDefaultUnit(ElectricCurrent, p.value.value / v.value.value))
  }

  /** `compute_voltage`: watts over amperes, as a voltage in volts. */
  function VoltageFrom(cat: Catalog, power: Quantity, current: Quantity): (r: Result<Quantity>)
    ensures ConvertTo(cat, power, Watt).Failure? ==> r == Failure(ConvertTo(cat, power, Watt).error)
    ensures ConvertTo(cat, power, Watt).Success? && ConvertTo(cat, current, Ampere).Success? ==>
      (r.Failure? <==> ConvertTo(cat, current, Ampere).value.value == 0.0)
    ensures ConvertTo(cat, power, Watt).Success? && ConvertTo(cat, current, Ampere).Failure? ==>
      r == Failure(ConvertTo(cat, current, Ampere).error)
    ensures (ConvertTo(cat, power, Watt).Success? && ConvertTo(cat, current, Ampere).Success? &&
             ConvertTo(cat, current, Ampere).value.value == 0.0) ==> r == Failure(ZeroDivisionError)
    ensures r.Success? ==> r.value.kind == Voltage && r.value.unit == Volt
    ensures r.Success? ==> (ConvertTo(cat, current, Ampere).Success? && ConvertTo(cat, power, Watt).Success? &&
       r.value.value * ConvertTo(cat, current, Ampere).value.value == ConvertTo(cat, power, Watt).value.value)
  {
    var p := ConvertTo(cat, power, Watt);
    var i := ConvertTo(cat, current, Ampere);
    if p.Failure? then Failure(p.error)
    else if i.Failure? then Failure(i.error)
    else if i.value.value == 0.0 then Failure(ZeroDivisionError)
    else Success(WithDefaultUnit(Voltage, p.value.value / i.value.value))
  }

  const NeedTwo := "At least two parameters" + " (voltage, current, power) must be provided."

  /** `Component.__init__`: voltage and current first, then voltage and power, then current and
      power; with fewer than two given it raises ValueError. */
  function Derive(cat: Catalog, voltage: Option<Quantity>, current: Option<Quantity>, power: Option<Quantity>): (r: Result<Electrical>)
    ensures r.Success? ==> r.value.voltage.Some? && r.value.current.Some? && r.value.power.Some?
    ensures voltage.Some? && current.Some? ==>
      var p := PowerFrom(cat, voltage.value, current.value);
      (r.Success? <==> p.Success?) && (p.Failure? ==> r.error == p.error) &&
      (p.Success? ==> r.value == Electrical(voltage, current, Some(p.value)))
    ensures voltage.Some? && current.None? && power.Some? ==>
      var i := CurrentFrom(cat, power.value, voltage.value);
      (r.Success? <==> i.Success?) && (i.Failure? ==> r.error == i.error) &&
      (i.Success? ==> r.value == Electrical(voltage, Some(i.value), power))
    ensures voltage.None? && current.Some? && power.Some? ==>
      var v := VoltageFrom(cat, power.value, current.value);
      (r.Success? <==> v.Success?) && (v.Failure? ==> r.error == v.error) &&
      (v.Success? ==> r.value == Electrical(Some(v.value), current, power))
  {
    if voltage.Some? && current.Some? then
      var p :- PowerFrom(cat, voltage.value, current.value);
      Success(Electrical(voltage, current, Some(p)))
    else if voltage.Some? && power.Some? then
      var i :- CurrentFrom(cat, power.value, voltage.value);
      Success(Electrical(voltage, Some(i), power))
    else if current.Some? && power.Some? then
      var v :- VoltageFrom(cat, power.value, current.value);
      Success(Electrical(Some(v), current, power))
    else Failure(ValueError(NeedTwo))
  }

  /** How many of the three were given. */
  function Given(voltage: Option<Quantity>, current: Option<Quantity>, power: Option<Quantity>): nat {
    (if voltage.Some? then 1 else 0) + (if current.Some? then 1 else 0) + (if power.Some? then 1 else 0)
  }

  /** Construction fails with the "at least two" message exactly when fewer than two are given. */
  lemma DeriveNeedsTwo(cat: Catalog, voltage: Option<Quantity>, current: Option<Quantity>, power: Option<Quantity>)
    ensures Derive(cat, voltage, current, power) == Failure(ValueError(NeedTwo)) <==> Given(voltage, current, power) < 2
  {
    if Given(voltage, current, power) >= 2 && voltage.Some? {
      ConvertToErrors(cat, voltage.value, Volt);
    }
    if Given(voltage, current, power) >= 2 && current.Some? {
      ConvertToErrors(cat, current.value, Ampere);
    }
    if Given(voltage, current, power) >= 2 && power.Some? {
      ConvertToErrors(cat, power.value, Watt);
    }
  }

  /** A conversion never fails with the "at least two" message. */
  lemma ConvertToErrors(cat: Catalog, q: Quantity, target: Unit)
    ensures ConvertTo(cat, q, target).Failure? ==> ConvertTo(cat, q, target).error != ValueError(NeedTwo)
  {
    assert NeedTwo[0] == 'A';
    if !SameUnit(q.unit, target) && !Compatible(q.unit, target) {
      var tail := UnitString(q.unit) + " and " + UnitString(target);
      assert "Cannot convert between incompatible units: " + UnitString(q.unit) + " and " + UnitString(target) ==
        "Cannot convert between incompatible units: " + tail;
      assert ("Cannot convert between incompatible units: " + tail)[0] == 'C';
    } else if !SameUnit(q.unit, target) {
      var c := Convert(TableOf(cat, q.kind), q.value, q.unit.symbol, target.symbol);
      if c.Failure? && c.error.ValueError? {
        assert c.error.msg[0] == 'U';
      }
    }
  }

  /** With voltage and current given, a supplied power is ignored and recomputed. */
  lemma DerivePowerWins(cat: Catalog, voltage: Quantity, current: Quantity, power: Option<Quantity>)
    ensures Derive(cat, Some(voltage), Some(current), power) == Derive(cat, Some(voltage), Some(current), None)
    ensures Derive(cat, Some(voltage), Some(current), power).Success? ==>
      Derive(cat, Some(voltage), Some(current), power).value.power == Some(PowerFrom(cat, voltage, current).value)
  {
  }

  /** Deriving the power from voltage and current, then the current back from that voltage and
      power, gives the current in amperes (for a nonzero voltage). */
  lemma DeriveCurrentBack(cat: Catalog, voltage: Quantity, current: Quantity)
    requires PowerFrom(cat, voltage, current).Success?
    requires ConvertTo(cat, voltage, Volt).value.value != 0.0
    ensures CurrentFrom(cat, PowerFrom(cat, voltage, current).value, voltage) ==
      Success(Quantity(ElectricCurrent, ConvertTo(cat, current, Ampere).value.value, Ampere))
  {
    var p := PowerFrom(cat, voltage, current).value;
    assert ConvertTo(cat, p, Watt) == Success(p);
    var v := ConvertTo(cat, voltage, Volt).value.value;
    var i := ConvertTo(cat, current, Ampere).value.value;
    assert p.value == v * i;
    ProductOverFactor(v, i);
  }

  /** Likewise the voltage is recovered from power and current (for a nonzero current). */
  lemma DeriveVoltageBack(cat: Catalog, voltage: Quantity, current: Quantity)
    requires PowerFrom(cat, voltage, current).Success?
    requires ConvertTo(cat, current, Ampere).value.value != 0.0
    ensures VoltageFrom(cat, PowerFrom(cat, voltage, current).value, current) ==
      Success(Quantity(Voltage, ConvertTo(cat, voltage, Volt).value.value, Volt))
  {
    var p := PowerFrom(cat, voltage, current).value;
    assert ConvertTo(cat, p, Watt) == Success(p);
    var v := ConvertTo(cat, voltage, Volt).value.value;
    var i := ConvertTo(cat, current, Ampere).value.value;
    assert p.value == v * i;
    ProductOverFactor(i, v);
    assert v * i == i * v;
  }

  /** Dividing a product by one nonzero factor leaves the other. */
  lemma ProductOverFactor(x: real, y: real)
    requires x != 0.0
    ensures (x * y) / x == y
  {
  }

  /** `energy_consumption`: watts times seconds, as an energy in joules. A component whose power
      was set to None fails on the attribute access. */
  function EnergyFrom(cat: Catalog, power: Option<Quantity>, t: Quantity): (r: Result<Quantity>)
    ensures power.None? ==> r.Failure? && r.error.AttributeError?
    ensures power.Some? ==>
      (r.Success? <==> ConvertTo(cat, power.value, Watt).Success? && ConvertTo(cat, t, Second).Success?)
    ensures power.Some? && ConvertTo(cat, power.value, Watt).Failure? ==> r == Failure(ConvertTo(cat, power.value, Watt).error)
    ensures power.Some? && ConvertTo(cat, power.value, Watt).Success? && ConvertTo(cat, t, Second).Failure? ==>
      r == Failure(ConvertTo(cat, t, Second).error)
    ensures r.Success? ==> r.value.kind == Quantities.Energy && r.value.unit == Joule
    ensures power.Some? && power.value.unit == Watt && t.unit == Second ==>
      r == Success(Quantity(Quantities.Energy, power.value.value * t.value, Joule))
    ensures r.Success? ==> (ConvertTo(cat, power.value, Watt).Success? && ConvertTo(cat, t, Second).Success? &&
       r.value.value == ConvertTo(cat, power.value, Watt).value.value * ConvertTo(cat, t, Second).value.value)
  {
    if power.None? then Failure(AttributeError("'NoneType' object has no attribute 'convert_to'"))
    else
      var p := ConvertTo(cat, power.value, Watt);
      var s := ConvertTo(cat, t, Second);
      assert SameUnit(Watt, Watt) && SameUnit(Second, Second);
      if p.Failure? then Failure(p.error)
      else if s.Failure? then Failure(s.error)
      else
        assert power.value.unit == Watt && t.unit == Second ==> p.value == power.value && s.value == t;
        assert power.value.unit == Watt && t.unit == Second ==> p.value.value * s.value.value == power.value.value * t.value;
        assert DefaultUnit(Quantities.Energy) == Joule;
        Success(WithDefaultUnit(Quantities.Energy, p.value.value * s.value.value))
  }

  // ---------------------------------------------------------------------------------------
  // Components

  class Component {
    var name: string
    var voltage: Option<Quantity>
    var current: Option<Quantity>
    var power: Option<Quantity>
    var powerSupply: PowerSupply?

    /** The raw field assignments at the start of `__init__`. */
    constructor Raw(name: string, voltage: Option<Quantity>, current: Option<Quantity>, power: Option<Quantity>, powerSupply: PowerSupply?)
      ensures this.name == name && this.voltage == voltage && this.current == current
      ensures this.power == power && this.powerSupply == powerSupply
    {
      this.name := name;
      this.voltage := voltage;
      this.current := current;
      this.power := power;
      this.powerSupply := powerSupply;
    }

    /** `Component(...)`: assigns the fields, then fills in the missing one through the
        `compute_*` method the given pair selects. */
    static method Create(cat: Catalog, name: string, voltage: Option<Quantity>, current: Option<Quantity>, power: Option<Quantity>, powerSupply: PowerSupply?)
      returns (r: Result<Component>)
      ensures r.Failure? <==> Derive(cat, voltage, current, power).Failure?
      ensures r.Failure? ==> r.error == Derive(cat, voltage, current, power).error
      ensures r.Success? ==> fresh(r.value) && r.value.name == name && r.value.powerSupply == powerSupply
      ensures r.Success? ==> r.value.Fields() == Derive(cat, voltage, current, power).value
    {
      var c := new Component.Raw(name, voltage, current, power, powerSupply);
      var o: Outcome;
      if voltage.Some? && current.Some? {
        o := c.ComputePower(cat);
      } else if voltage.Some? && power.Some? {
        o := c.ComputeCurrent(cat);
      } else if current.Some? && power.Some? {
        o := c.ComputeVoltage(cat);
      } else {
        return Failure(ValueError(NeedTwo));
      }
      if o.Fail? {
        return Failure(o.error);
      }
      return Success(c);
    }

    function Fields(): Electrical
      reads this
    {
      Electrical(voltage, current, power)
    }

    /** `compute_power`; an exception leaves the fields as they were. */
    method ComputePower(cat: Catalog) returns (o: Outcome)
      requires voltage.Some? && current.Some?
      modifies this
      ensures o.Fail? <==> PowerFrom(cat, old(voltage).value, old(current).value).Failure?
      ensures o.Fail? ==> o.error == PowerFrom(cat, old(voltage).value, old(current).value).error && unchanged(this)
      ensures o.Pass? ==> power == Some(PowerFrom(cat, old(voltage).value, old(current).value).value)
      ensures o.Pass? ==> name == old(name) && voltage == old(voltage) && current == old(current) && powerSupply == old(powerSupply)
    {
      var p := PowerFrom(cat, voltage.value, current.value);
      if p.Failure? {
        return Fail(p.error);
      }
      o := SetPower(Some(p.value));
    }

    /** `compute_current`. */
    method ComputeCurrent(cat: Catalog) returns (o: Outcome)
      requires voltage.Some? && power.Some?
      modifies this
      ensures o.Fail? <==> CurrentFrom(cat, old(power).value, old(voltage).value).Failure?
      ensures o.Fail? ==> o.error == CurrentFrom(cat, old(power).value, old(voltage).value).error && unchanged(this)
      ensures o.Pass? ==> current == Some(CurrentFrom(cat, old(power).value, old(voltage).value).value)
      ensures o.Pass? ==> name == old(name) && voltage == old(voltage) && power == old(power) && powerSupply == old(powerSupply)
    {
      var i := CurrentFrom(cat, power.value, voltage.value);
      if i.Failure? {
        return Fail(i.error);
      }
      o := SetCurrent(Some(i.value));
    }

    /** `compute_voltage`. */
    method ComputeVoltage(cat: Catalog) returns (o: Outcome)
      requires current.Some? && power.Some?
      modifies this
      ensures o.Fail? <==> VoltageFrom(cat, old(power).value, old(current).value).Failure?
      ensures o.Fail? ==> o.error == VoltageFrom(cat, old(power).value, old(current).value).error && unchanged(this)
      ensures o.Pass? ==> voltage == Some(VoltageFrom(cat, old(power).value, old(current).value).value)
      ensures o.Pass? ==> name == old(name) && current == old(current) && power == old(power) && powerSupply == old(powerSupply)
    {
      var v := VoltageFrom(cat, power.value, current.value);
      if v.Failure? {
        return Fail(v.error);
      }
      o := SetVoltage(Some(v.value));
    }

    /** `energy_consumption(t)`. */
    function EnergyConsumption(cat: Catalog, t: Quantity): Result<Quantity>
      reads this
    {
      EnergyFrom(cat, power, t)
    }

    /** The `voltage` setter: None or a VoltageQuantity. */
    method SetVoltage(value: Option<Quantity>) returns (o: Outcome)
      modifies this
      ensures o.Fail? <==> value.Some? && value.value.kind != Voltage
      ensures o.Fail? ==> o.error == ValueError("Voltage must be of type Voltage") && unchanged(this)
      ensures o.Pass? ==> voltage == value && name == old(name) && current == old(current) && power == old(power) && powerSupply == old(powerSupply)
    {
      if value.Some? && value.value.kind != Voltage {
        return Fail(ValueError("Voltage must be of type Voltage"));
      }
      voltage := value;
      return Pass;
    }

    /** The `current` setter: None or an ElectricCurrentQuantity. */
    method SetCurrent(value: Option<Quantity>) returns (o: Outcome)
      modifies this
      ensures o.Fail? <==> value.Some? && value.value.kind != ElectricCurrent
      ensures o.Fail? ==> o.error == ValueError("Current must be of type Current") && unchanged(this)
      ensures o.Pass? ==> current == value && name == old(name) && voltage == old(voltage) && power == old(power) && powerSupply == old(powerSupply)
    {
      if value.Some? && value.value.kind != ElectricCurrent {
        return Fail(ValueError("Current must be of type Current"));
      }
      current := value;
      return Pass;
    }

    /** The `power` setter: None or a PowerQuantity. */
    method SetPower(value: Option<Quantity>) returns (o: Outcome)
      modifies this
      ensures o.Fail? <==> value.Some? && value.value.kind != Power
      ensures o.Fail? ==> o.error == ValueError("Power must be of type Power") && unchanged(this)
      ensures o.Pass? ==> power == value && name == old(name) && voltage == old(voltage) && current == old(current) && powerSupply == old(powerSupply)
    {
      if value.Some? && value.value.kind != Power {
        return Fail(ValueError("Power must be of type Power"));
      }
      power := value;
      return Pass;
    }

    /** The `power_supply` setter: None is rejected. */
    method SetPowerSupply(supply: PowerSupply?) returns (o: Outcome)
      modifies this
      ensures o.Fail? <==> supply == null
      ensures o.Fail? ==> o.error == ValueError("new_power_supply must be a BasePowerSupply") && unchanged(this)
      ensures o.Pass? ==> powerSupply == supply && Fields() == old(Fields()) && name == old(name)
    {
      if supply == null {
        return Fail(ValueError("new_power_supply must be a BasePowerSupply"));
      }
      powerSupply := supply;
      return Pass;
    }
  }

  // ---------------------------------------------------------------------------------------
  // The power budget of a supply

  /** One `(component, quantity)` entry of a supply's list. */
  datatype Entry = Entry(component: Component, quantity: int)

  /** What the budget loop reads from an entry: the component's current and the count. */
  datatype Load = Load(current: Option<Quantity>, quantity: int)

  function Components(entries: seq<Entry>): set<Component> {
    set i | 0 <= i < |entries| :: entries[i].component
  }

  /** The loads of a list of entries, read from the components as they are now. */
  function Loads(entries: seq<Entry>): (r: seq<Load>)
    reads Components(entries)`current
    ensures |r| == |entries|
    ensures forall i :: 0 <= i < |entries| ==> r[i] == Load(entries[i].component.current, entries[i].quantity)
  {
    if entries == [] then []
    else
      var n := |entries| - 1;
      assert Components(entries[..n]) <= Components(entries) by {
        forall c | c in Components(entries[..n]) ensures c in Components(entries) {
          var i :| 0 <= i < n && entries[..n][i].component == c;
          assert entries[i].component == c;
        }
      }
      Loads(entries[..n]) + [Load(entries[n].component.current, entries[n].quantity)]
  }

  /** `convert_to(component.current, 'mA').value`; a None current fails on the attribute. */
  function Milliamps(cat: Catalog, current: Option<Quantity>): (r: Result<real>)
    ensures current.None? ==> r.Failure? && r.error.AttributeError?
    ensures current.Some? ==> r == ValueInSymbol(cat, current.value, "mA")
  {
    if current.None? then Failure(AttributeError("'NoneType' object has no attribute 'unit'"))
    else ValueInSymbol(cat, current.value, "mA")
  }

  /** The loop's running total: each entry's current in mA times its count, front to back;
      the first entry whose current cannot be read in mA stops it. */
  function CurrentTotal(cat: Catalog, loads: seq<Load>): Result<real> {
    if loads == [] then Success(0.0)
    else Accumulate(CurrentTotal(cat, loads[..|loads| - 1]), Share(cat, loads[|loads| - 1]))
  }

  /** One step of the running total: an earlier failure stays, then a failing share, else the
      sum. */
  function Accumulate(total: Result<real>, share: Result<real>): Result<real> {
    if total.Failure? then total
    else if share.Failure? then share
    else Success(total.value + share.value)
  }

  /** One entry's share of the total: its current in mA times its count. */
  function Share(cat: Catalog, load: Load): Result<real> {
    var mA := Milliamps(cat, load.current);
    if mA.Failure? then Failure(mA.error) else Success(Weighted(mA.value, load.quantity))
  }

  function Weighted(x: real, count: int): real {
    x * count as real
  }

  /** `compute_power_budget`: the nominal voltage in V first, then the current total in mA;
      the power, in mW, is that total times the voltage. */
  function Budget(cat: Catalog, nominal: Quantity, loads: seq<Load>): (r: Result<(real, real)>)
    ensures ValueInSymbol(cat, nominal, "V").Failure? ==> r == Failure(ValueInSymbol(cat, nominal, "V").error)
    ensures ValueInSymbol(cat, nominal, "V").Success? ==> (r.Success? <==> CurrentTotal(cat, loads).Success?)
    ensures r.Success? ==> (CurrentTotal(cat, loads).Success? && ValueInSymbol(cat, nominal, "V").Success? &&
                            r.value.0 == CurrentTotal(cat, loads).value &&
                            r.value.1 == Milliwatts(r.value.0, ValueInSymbol(cat, nominal, "V").value))
  {
    var volts := ValueInSymbol(cat, nominal, "V");
    var current := CurrentTotal(cat, loads);
    if volts.Failure? then Failure(volts.error)
    else if current.Failure? then Failure(current.error)
    else Success((current.value, Milliwatts(current.value, volts.value)))
  }

  /** A current in mA times a voltage in V is a power in mW. */
  function Milliwatts(milliamps: real, volts: real): real {
    milliamps * volts
  }

  /** The budget is the loop's total and that total times the voltage. */
  lemma BudgetOf(cat: Catalog, nominal: Quantity, loads: seq<Load>, current: real, volts: real)
    requires ValueInSymbol(cat, nominal, "V") == Success(volts)
    requires CurrentTotal(cat, loads) == Success(current)
    ensures Budget(cat, nominal, loads) == Success((current, Milliwatts(current, volts)))
  {
  }

  /** A supply whose voltage converts and whose total fails reports the total's error. */
  lemma BudgetFails(cat: Catalog, nominal: Quantity, loads: seq<Load>, e: Error)
    requires ValueInSymbol(cat, nominal, "V").Success?
    requires CurrentTotal(cat, loads) == Failure(e)
    ensures Budget(cat, nominal, loads) == Failure(e)
  {
  }

  /** The loop of `compute_power_budget`: each entry's current in mA times its count, added
      front to back; the first current that cannot be read in mA stops it with that error. */
  method SumCurrents(cat: Catalog, loads: seq<Load>) returns (r: Result<real>)
    ensures r == CurrentTotal(cat, loads)
  {
    var current := 0.0;
    for i := 0 to |loads|
      invariant CurrentTotal(cat, loads[..i]) == Success(current)
    {
      var mA := Milliamps(cat, loads[i].current);
      if mA.Failure? {
        CurrentTotalStops(cat, loads, i);
        return Failure(mA.error);
      }
      TotalStep(cat, loads, i);
      current := current + Weighted(mA.value, loads[i].quantity);
    }
    assert loads[..|loads|] == loads;
    return Success(current);
  }

  /** With no components the budget is zero current and zero power. */
  lemma EmptyBudget(cat: Catalog, nominal: Quantity)
    requires ValueInSymbol(cat, nominal, "V").Success?
    ensures Budget(cat, nominal, []) == Success((0.0, 0.0))
  {
  }

  /** The total over two lists is the sum of their totals; if either cannot be computed the
      first failure, in list order, is the result. */
  lemma {:induction false} CurrentTotalConcat(cat: Catalog, a: seq<Load>, b: seq<Load>)
    ensures CurrentTotal(cat, a).Failure? ==> CurrentTotal(cat, a + b) == CurrentTotal(cat, a)
    ensures CurrentTotal(cat, a).Success? && CurrentTotal(cat, b).Failure? ==> CurrentTotal(cat, a + b) == CurrentTotal(cat, b)
    ensures CurrentTotal(cat, a).Success? && CurrentTotal(cat, b).Success? ==>
      CurrentTotal(cat, a + b) == Success(CurrentTotal(cat, a).value + CurrentTotal(cat, b).value)
  {
    ConcatAccumulates(cat, a, b);
  }

  /** The total over `a + b` accumulates the total over `b` onto the total over `a`. */
  lemma {:induction false} ConcatAccumulates(cat: Catalog, a: seq<Load>, b: seq<Load>)
    ensures CurrentTotal(cat, a + b) == Accumulate(CurrentTotal(cat, a), CurrentTotal(cat, b))
  {
    if b == [] {
      assert a + b == a;
    } else {
      var n := |b| - 1;
      assert (a + b)[..|a + b| - 1] == a + b[..n];
      assert (a + b)[|a + b| - 1] == b[n];
      ConcatAccumulates(cat, a, b[..n]);
      AccumulateAssociates(CurrentTotal(cat, a), CurrentTotal(cat, b[..n]), Share(cat, b[n]));
    }
  }

  /** One more entry of the loop: the total over the longer prefix accumulates its share. */
  lemma TotalStep(cat: Catalog, loads: seq<Load>, i: int)
    requires 0 <= i < |loads|
    ensures CurrentTotal(cat, loads[..i + 1]) == Accumulate(CurrentTotal(cat, loads[..i]), Share(cat, loads[i]))
  {
    assert loads[..i + 1][..i] == loads[..i] && loads[..i + 1][i] == loads[i];
  }

  /** Accumulating is associative, failures included. */
  lemma AccumulateAssociates(x: Result<real>, y: Result<real>, z: Result<real>)
    ensures Accumulate(Accumulate(x, y), z) == Accumulate(x, Accumulate(y, z))
  {
  }

  /** Where every current is already in mA, the total is the plain sum of value times count. */
  function MilliampSum(loads: seq<Load>): real
    requires forall i :: 0 <= i < |loads| ==> loads[i].current.Some?
  {
    if loads == [] then 0.0
    else MilliampSum(loads[..|loads| - 1]) + Weighted(loads[|loads| - 1].current.value.value, loads[|loads| - 1].quantity)
  }

  lemma {:induction false} CurrentTotalInMilliamps(cat: Catalog, loads: seq<Load>)
    requires forall i :: 0 <= i < |loads| ==> loads[i].current.Some? && loads[i].current.value.unit.symbol == "mA"
    ensures CurrentTotal(cat, loads) == Success(MilliampSum(loads))
  {
    if loads != [] {
      var n := |loads| - 1;
      assert forall i :: 0 <= i < n ==> loads[..n][i] == loads[i];
      CurrentTotalInMilliamps(cat, loads[..n]);
      assert Share(cat, loads[n]) == Success(Weighted(loads[n].current.value.value, loads[n].quantity));
    }
  }

  /** The failing entry stops the loop: with the prefix summed, a failing entry makes the whole
      list fail with its error. */
  lemma {:induction false} CurrentTotalStops(cat: Catalog, loads: seq<Load>, i: int)
    requires 0 <= i < |loads| && CurrentTotal(cat, loads[..i]).Success?
    requires Milliamps(cat, loads[i].current).Failure?
    ensures CurrentTotal(cat, loads) == Failure(Milliamps(cat, loads[i].current).error)
  {
    var upTo := loads[..i + 1];
    assert upTo[..|upTo| - 1] == loads[..i] && upTo[|upTo| - 1] == loads[i];
    LastShareFails(cat, upTo);
    assert loads == upTo + loads[i + 1..];
    CurrentTotalConcat(cat, upTo, loads[i + 1..]);
  }

  /** A summed prefix followed by an unreadable last current fails with that current's error. */
  lemma {:induction false} LastShareFails(cat: Catalog, loads: seq<Load>)
    requires loads != [] && CurrentTotal(cat, loads[..|loads| - 1]).Success?
    requires Milliamps(cat, loads[|loads| - 1].current).Failure?
    ensures CurrentTotal(cat, loads) == Failure(Milliamps(cat, loads[|loads| - 1].current).error)
  {
  }

  /** `total_components`: the sum of the counts. */
  function QuantitySum(entries: seq<Entry>): int {
    if entries == [] then 0 else QuantitySum(entries[..|entries| - 1]) + entries[|entries| - 1].quantity
  }

  lemma {:induction false} QuantitySumConcat(a: seq<Entry>, b: seq<Entry>)
    ensures QuantitySum(a + b) == QuantitySum(a) + QuantitySum(b)
  {
    if b == [] {
      assert a + b == a;
    } else {
      var n := |b| - 1;
      assert (a + b)[..|a + b| - 1] == a + b[..n];
      assert (a + b)[|a + b| - 1] == b[n];
      QuantitySumConcat(a, b[..n]);
    }
  }

  /** Replacing the count of one entry changes the sum by the difference of the counts, and
      deleting an entry subtracts its count. */
  lemma QuantitySumEdits(entries: seq<Entry>, i: int, q: int)
    requires 0 <= i < |entries|
    ensures QuantitySum(entries[i := entries[i].(quantity := q)]) == QuantitySum(entries) - entries[i].quantity + q
    ensures QuantitySum(entries[..i] + entries[i + 1..]) == QuantitySum(entries) - entries[i].quantity
  {
    var e := entries[i].(quantity := q);
    assert entries == entries[..i] + [entries[i]] + entries[i + 1..];
    assert entries[i := e] == entries[..i] + [e] + entries[i + 1..];
    QuantitySumConcat(entries[..i] + [entries[i]], entries[i + 1..]);
    QuantitySumConcat(entries[..i], [entries[i]]);
    QuantitySumConcat(entries[..i] + [e], entries[i + 1..]);
    QuantitySumConcat(entries[..i], [e]);
    QuantitySumConcat(entries[..i], entries[i + 1..]);
    assert QuantitySum([entries[i]]) == entries[i].quantity by { assert [entries[i]][..0] == []; }
    assert QuantitySum([e]) == q by { assert [e][..0] == []; }
  }

  /** The position `list.pop(index)` removes: negative indices count from the end. */
  function PopIndex(n: nat, index: int): (r: Option<nat>)
    ensures r.Some? <==> -(n as int) <= index < n
    ensures r.Some? ==> r.value < n && (r.value == index || r.value == n + index)
  {
    if 0 <= index < n then Some(index)
    else if -(n as int) <= index < 0 then Some(n + index)
    else None
  }

  /** A negative index counts from the end: -1 is the last entry. */
  lemma PopLast(n: nat)
    requires n > 0
    ensures PopIndex(n, -1) == Some(n - 1) && PopIndex(n, n - 1) == Some(n - 1)
  {
  }

  // ---------------------------------------------------------------------------------------
  // Power-supply construction

  /** The subclass-specific fields of a supply. */
  datatype SupplyKind =
    | BatterySupply(chemistry: string, subchemistry: string, cellVoltage: Quantity, cellCount: int, capacity: Quantity)
    | RegulatorSupply(dcdcType: string, minInputVoltage: Quantity, maxInputVoltage: Quantity, efficiency: real)

  /** What a supply constructor hands to `BasePowerSupply.__init__`. */
  datatype SupplySpec = SupplySpec(name: string, nominalVoltage: Quantity, maxOutputCurrent: Quantity, kind: SupplyKind)

  /** `Battery.__init__`: cell count, then cell voltage, then capacity are checked; the
      nominal voltage is the count times the cell voltage, in the cell voltage's unit. */
  function Battery(name: string, chemistry: string, cellVoltage: Quantity, maxOutputCurrent: Quantity,
                   capacity: Quantity, subchemistry: string, cellCount: int): (r: Result<SupplySpec>)
    ensures r.Success? <==> cellCount > 0 && cellVoltage.value >= 0.0 && capacity.value >= 0.0
    ensures cellCount <= 0 ==> r == Failure(ValueError("Cell number must be a positive integer"))
    ensures cellCount > 0 && cellVoltage.value < 0.0 ==> r == Failure(ValueError("Cell voltage must be a positive floating-point value"))
    ensures cellCount > 0 && cellVoltage.value >= 0.0 && capacity.value < 0.0 ==>
      r == Failure(ValueError("Battery capacity must be a positive floating-point value"))
    ensures r.Success? ==> r.value.nominalVoltage == Quantity(Voltage, cellCount as real * cellVoltage.value, cellVoltage.unit)
    ensures r.Success? ==> r.value.nominalVoltage.value >= cellVoltage.value
    ensures r.Success? ==> r.value.kind == BatterySupply(chemistry, subchemistry, cellVoltage, cellCount, capacity)
  {
    if cellCount <= 0 then Failure(ValueError("Cell number must be a positive integer"))
    else if cellVoltage.value < 0.0 then Failure(ValueError("Cell voltage must be a positive floating-point value"))
    else if capacity.value < 0.0 then Failure(ValueError("Battery capacity must be a positive floating-point value"))
    else
      var nominal := Quantity(Voltage, cellCount as real * cellVoltage.value, cellVoltage.unit);
      Success(SupplySpec(name, nominal, maxOutputCurrent, BatterySupply(chemistry, subchemistry, cellVoltage, cellCount, capacity)))
  }

  const LithiumSubchemistries: seq<string> := ["LiPo", "Li-ion", "LiFePO4", "LiMn2O4", "LiCoO2", "Other"]
  const LithiumCellVoltages: seq<real> := [3.7, 3.6, 3.2, 3.7, 3.6, 0.0]

  /** `tuple.index`: the first position of `x`. */
  function IndexIn(s: seq<string>, x: string): (i: nat)
    requires x in s
    ensures i < |s| && s[i] == x && forall j :: 0 <= j < i ==> s[j] != x
  {
    if s[0] == x then 0 else 1 + IndexIn(s[1..], x)
  }

  /** The cell voltage `LithiumBattery` hands to `Battery`: the supplied one for "Other", the
      tabulated one, in volts, for any listed subchemistry. */
  function LithiumCell(sub: string, cellVoltage: Option<Quantity>): Quantity
    requires sub in LithiumSubchemistries && (sub == "Other" ==> cellVoltage.Some?)
  {
    if sub == "Other" then cellVoltage.value
    else WithDefaultUnit(Voltage, LithiumCellVoltages[IndexIn(LithiumSubchemistries, sub)])
  }

  const InvalidLithium := "Invalid chemistry, must be in ('LiPo', 'Li-ion', 'LiFePO4', 'LiMn2O4', 'LiCoO2', 'Other') range"

  /** `LithiumBattery.__init__`: None selects LiPo; an unknown name is rejected; "Other" needs an
      explicit cell voltage; any other name takes its cell voltage, in volts, from the table. */
  function LithiumBattery(name: string, maxOutputCurrent: Quantity, capacity: Quantity, cellVoltage: Option<Quantity>,
                          cellCount: int, subchemistry: Option<string>): (r: Result<SupplySpec>)
    ensures subchemistry.Some? && subchemistry.value !in LithiumSubchemistries ==> r == Failure(ValueError(InvalidLithium))
    ensures subchemistry == Some("Other") && cellVoltage.None? ==> r == Failure(ValueError("Cell voltage must be provided if using custom chemistry"))
    ensures r.Success? ==> r.value.kind.BatterySupply? && r.value.kind.chemistry == "Lithium"
    ensures r.Success? ==> r.value.kind.subchemistry == subchemistry.GetOr("LiPo")
    ensures r.Success? ==> subchemistry.GetOr("LiPo") in LithiumSubchemistries && (subchemistry == Some("Other") ==> cellVoltage.Some?)
    ensures r.Success? && subchemistry.GetOr("LiPo") != "Other" ==>
      r.value.kind.cellVoltage == WithDefaultUnit(Voltage, LithiumCellVoltages[IndexIn(LithiumSubchemistries, subchemistry.GetOr("LiPo"))])
    ensures r.Success? && subchemistry == Some("Other") ==> r.value.kind.cellVoltage == cellVoltage.value
    ensures var sub := subchemistry.GetOr("LiPo");
      sub in LithiumSubchemistries && (sub == "Other" ==> cellVoltage.Some?) ==>
      r == Battery(name, "Lithium", LithiumCell(sub, cellVoltage), maxOutputCurrent, capacity, sub, cellCount)
  {
    var sub := subchemistry.GetOr("LiPo");
    if sub !in LithiumSubchemistries then Failure(ValueError(InvalidLithium))
    else if cellVoltage.None? && sub == "Other" then
      Failure(ValueError("Cell voltage must be provided if using custom chemistry"))
    else
      Battery(name, "Lithium", LithiumCell(sub, cellVoltage), maxOutputCurrent, capacity, sub, cellCount)
  }

  /** A table subchemistry ignores whatever cell voltage is supplied. */
  lemma LithiumIgnoresSuppliedVoltage(name: string, maxOutputCurrent: Quantity, capacity: Quantity,
                                      v1: Option<Quantity>, v2: Option<Quantity>, cellCount: int, sub: string)
    requires sub in LithiumSubchemistries && sub != "Other"
    ensures LithiumBattery(name, maxOutputCurrent, capacity, v1, cellCount, Some(sub)) ==
            LithiumBattery(name, maxOutputCurrent, capacity, v2, cellCount, Some(sub))
  {
  }

  /** One LiPo cell gives 3.7 V, and None means LiPo. */
  lemma LithiumDefaultExample(maxOutputCurrent: Quantity, capacity: Quantity)
    requires capacity.value >= 0.0
    ensures LithiumBattery("b", maxOutputCurrent, capacity, None, 1, Some("LiPo")).Success?
    ensures LithiumBattery("b", maxOutputCurrent, capacity, None, 1, Some("LiPo")).value.nominalVoltage == Quantity(Voltage, 3.7, Volt)
    ensures LithiumBattery("b", maxOutputCurrent, capacity, None, 1, None) == LithiumBattery("b", maxOutputCurrent, capacity, None, 1, Some("LiPo"))
  {
    assert LithiumSubchemistries[0] == "LiPo";
    assert IndexIn(LithiumSubchemistries, "LiPo") == 0;
  }

  /** Two Li-ion cells give 7.2 V. */
  lemma LithiumIonExample(maxOutputCurrent: Quantity, capacity: Quantity)
    requires capacity.value >= 0.0
    ensures LithiumBattery("b", maxOutputCurrent, capacity, None, 2, Some("Li-ion")).Success?
    ensures LithiumBattery("b", maxOutputCurrent, capacity, None, 2, Some("Li-ion")).value.nominalVoltage == Quantity(Voltage, 7.2, Volt)
  {
    assert LithiumSubchemistries[1] == "Li-ion";
    assert IndexIn(LithiumSubchemistries, "Li-ion") == 1;
  }

  /** `LeadAcidBattery.__init__`: 2.0 V cells, chemistry "Lead-Acid", subchemistry "Undefined". */
  function LeadAcidBattery(name: string, maxOutputCurrent: Quantity, capacity: Quantity, cellCount: int): (r: Result<SupplySpec>)
    ensures r.Success? <==> cellCount > 0 && capacity.value >= 0.0
    ensures cellCount <= 0 ==> r == Failure(ValueError("Cell number must be a positive integer"))
    ensures cellCount > 0 && capacity.value < 0.0 ==>
      r == Failure(ValueError("Battery capacity must be a positive floating-point value"))
    ensures r.Success? ==> r.value.nominalVoltage == Quantity(Voltage, 2.0 * cellCount as real, Volt)
    ensures r.Success? ==> r.value.kind == BatterySupply("Lead-Acid", "Undefined", Quantity(Voltage, 2.0, Volt), cellCount, capacity)
  {
    Battery(name, "Lead-Acid", WithDefaultUnit(Voltage, 2.0), maxOutputCurrent, capacity, "Undefined", cellCount)
  }

  /** Six lead-acid cells give 12 V and three give 6 V. */
  lemma LeadAcidExamples(maxOutputCurrent: Quantity, capacity: Quantity)
    requires capacity.value >= 0.0
    ensures LeadAcidBattery("b", maxOutputCurrent, capacity, 6).value.nominalVoltage.value == 12.0
    ensures LeadAcidBattery("b", maxOutputCurrent, capacity, 3).value.nominalVoltage.value == 6.0
  {
  }

  /** `VoltageRegulator.__init__` (reached through `DCDCConverter.__init__`, which records the
      converter type): the input range, compared as quantities, and then the efficiency. */
  function VoltageRegulator(cat: Catalog, name: string, dcdcType: string, nominal: Quantity, maxOutputCurrent: Quantity,
                            minInput: Quantity, maxInput: Quantity, efficiency: real): (r: Result<SupplySpec>)
    ensures Compare(cat, minInput, QuantityArg(maxInput), Gt).Failure? ==> r == Failure(Compare(cat, minInput, QuantityArg(maxInput), Gt).error)
    ensures r.Success? <==> Compare(cat, minInput, QuantityArg(maxInput), Gt) == Success(false) && 0.0 <= efficiency <= 1.0
    ensures Compare(cat, minInput, QuantityArg(maxInput), Gt) == Success(true) ==>
      r == Failure(ValueError("Minimum input voltage must be less or equal than maximum input voltage."))
    ensures Compare(cat, minInput, QuantityArg(maxInput), Gt) == Success(false) && !(0.0 <= efficiency <= 1.0) ==>
      r == Failure(ValueError("Efficiency must be between 0.0 and 1.0"))
    ensures r.Success? ==> r.value == SupplySpec(name, nominal, maxOutputCurrent, RegulatorSupply(dcdcType, minInput, maxInput, efficiency))
  {
    var tooHigh :- Compare(cat, minInput, QuantityArg(maxInput), Gt);
    if tooHigh then Failure(ValueError("Minimum input voltage must be less or equal than maximum input voltage."))
    else if efficiency < 0.0 || efficiency > 1.0 then Failure(ValueError("Efficiency must be between 0.0 and 1.0"))
    else Success(SupplySpec(name, nominal, maxOutputCurrent, RegulatorSupply(dcdcType, minInput, maxInput, efficiency)))
  }

  /** `BuckConverter.__init__`: the nominal voltage may not exceed the minimum input. */
  function BuckConverter(cat: Catalog, name: string, nominal: Quantity, maxOutputCurrent: Quantity,
                         minInput: Quantity, maxInput: Quantity, efficiency: real): (r: Result<SupplySpec>)
    ensures Compare(cat, nominal, QuantityArg(minInput), Gt) == Success(true) ==>
      r == Failure(ValueError("Nominal voltage must be lower than min. input voltage"))
    ensures Compare(cat, nominal, QuantityArg(minInput), Gt).Failure? ==> r == Failure(Compare(cat, nominal, QuantityArg(minInput), Gt).error)
    ensures Compare(cat, nominal, QuantityArg(minInput), Gt) == Success(false) ==>
      r == VoltageRegulator(cat, name, "Buck", nominal, maxOutputCurrent, minInput, maxInput, efficiency)
    ensures r.Success? <==> (Compare(cat, nominal, QuantityArg(minInput), Gt) == Success(false) &&
                             Compare(cat, minInput, QuantityArg(maxInput), Gt) == Success(false) && 0.0 <= efficiency <= 1.0)
    ensures r.Success? ==> r.value == SupplySpec(name, nominal, maxOutputCurrent, RegulatorSupply("Buck", minInput, maxInput, efficiency))
  {
    var tooHigh :- Compare(cat, nominal, QuantityArg(minInput), Gt);
    if tooHigh then Failure(ValueError("Nominal voltage must be lower than min. input voltage"))
    else VoltageRegulator(cat, name, "Buck", nominal, maxOutputCurrent, minInput, maxInput, efficiency)
  }

  /** `BoostConverter.__init__`: the nominal voltage may not be below the maximum input. */
  function BoostConverter(cat: Catalog, name: string, nominal: Quantity, maxOutputCurrent: Quantity,
                          minInput: Quantity, maxInput: Quantity, efficiency: real): (r: Result<SupplySpec>)
    ensures Compare(cat, nominal, QuantityArg(maxInput), Lt) == Success(true) ==>
      r == Failure(ValueError("Nominal voltage must be greater than max. input voltage"))
    ensures Compare(cat, nominal, QuantityArg(maxInput), Lt).Failure? ==> r == Failure(Compare(cat, nominal, QuantityArg(maxInput), Lt).error)
    ensures Compare(cat, nominal, QuantityArg(maxInput), Lt) == Success(false) ==>
      r == VoltageRegulator(cat, name, "Boost", nominal, maxOutputCurrent, minInput, maxInput, efficiency)
    ensures r.Success? <==> (Compare(cat, nominal, QuantityArg(maxInput), Lt) == Success(false) &&
                             Compare(cat, minInput, QuantityArg(maxInput), Gt) == Success(false) && 0.0 <= efficiency <= 1.0)
    ensures r.Success? ==> r.value == SupplySpec(name, nominal, maxOutputCurrent, RegulatorSupply("Boost", minInput, maxInput, efficiency))
  {
    var tooLow :- Compare(cat, nominal, QuantityArg(maxInput), Lt);
    if tooLow then Failure(ValueError("Nominal voltage must be greater than max. input voltage"))
    else VoltageRegulator(cat, name, "Boost", nominal, maxOutputCurrent, minInput, maxInput, efficiency)
  }

  /** `BuckBoostConverter.__init__`: only the regulator checks. */
  function BuckBoostConverter(cat: Catalog, name: string, nominal: Quantity, maxOutputCurrent: Quantity,
                              minInput: Quantity, maxInput: Quantity, efficiency: real): (r: Result<SupplySpec>)
    ensures r.Success? <==> Compare(cat, minInput, QuantityArg(maxInput), Gt) == Success(false) && 0.0 <= efficiency <= 1.0
    ensures Compare(cat, minInput, QuantityArg(maxInput), Gt).Failure? ==> r == Failure(Compare(cat, minInput, QuantityArg(maxInput), Gt).error)
    ensures Compare(cat, minInput, QuantityArg(maxInput), Gt) == Success(true) ==>
      r == Failure(ValueError("Minimum input voltage must be less or equal than maximum input voltage."))
    ensures Compare(cat, minInput, QuantityArg(maxInput), Gt) == Success(false) && !(0.0 <= efficiency <= 1.0) ==>
      r == Failure(ValueError("Efficiency must be between 0.0 and 1.0"))
    ensures r.Success? ==> r.value == SupplySpec(name, nominal, maxOutputCurrent, RegulatorSupply("Buck-Boost", minInput, maxInput, efficiency))
  {
    VoltageRegulator(cat, name, "Buck-Boost", nominal, maxOutputCurrent, minInput, maxInput, efficiency)
  }

  /** With all three voltages in one unit, a buck converter is accepted exactly when
      nominal <= min input <= max input and the efficiency lies in [0, 1]; a boost converter
      exactly when min input <= max input <= nominal. */
  lemma ConverterRanges(cat: Catalog, name: string, nominal: Quantity, maxOutputCurrent: Quantity,
                        minInput: Quantity, maxInput: Quantity, efficiency: real)
    requires nominal.kind == minInput.kind == maxInput.kind
    requires nominal.unit == minInput.unit == maxInput.unit
    ensures BuckConverter(cat, name, nominal, maxOutputCurrent, minInput, maxInput, efficiency).Success? <==>
      nominal.value <= minInput.value <= maxInput.value && 0.0 <= efficiency <= 1.0
    ensures BoostConverter(cat, name, nominal, maxOutputCurrent, minInput, maxInput, efficiency).Success? <==>
      minInput.value <= maxInput.value <= nominal.value && 0.0 <= efficiency <= 1.0
  {
  }

  // ---------------------------------------------------------------------------------------
  // Power supplies

  class PowerSupply {
    var name: string
    var nominalVoltage: Quantity
    var maxOutputCurrent: Quantity
    var kind: SupplyKind
    var components: seq<Entry>
    /** `total_current`, in mA. */
    var totalCurrent: real
    /** `total_power`, in mW. */
    var totalPower: real

    /** `BasePowerSupply.__init__` on validated parameters: no components, zero totals. */
    constructor (spec: SupplySpec)
      ensures name == spec.name && nominalVoltage == spec.nominalVoltage
      ensures maxOutputCurrent == spec.maxOutputCurrent && kind == spec.kind
      ensures components == [] && totalCurrent == 0.0 && totalPower == 0.0
    {
      name := spec.name;
      nominalVoltage := spec.nominalVoltage;
      maxOutputCurrent := spec.maxOutputCurrent;
      kind := spec.kind;
      components := [];
      totalCurrent := 0.0;
      totalPower := 0.0;
    }

    /** The state after a recomputation: the outcome is the budget's own, the totals are the
        budget when it succeeds and the previous totals when it raises. */
    ghost predicate Reported(cat: Catalog, o: Outcome, previousCurrent: real, previousPower: real)
      reads this, Components(components)`current
    {
      var b := Budget(cat, nominalVoltage, Loads(components));
      (o.Fail? <==> b.Failure?) && (o.Fail? ==> o.error == b.error) &&
      (o.Pass? ==> b.value == (totalCurrent, totalPower)) &&
      (o.Fail? ==> totalCurrent == previousCurrent && totalPower == previousPower)
    }

    /** `total_components`: a loop adding up the counts. */
    method TotalComponents() returns (count: int)
      ensures count == QuantitySum(components)
    {
      count := 0;
      for i := 0 to |components|
        invariant count == QuantitySum(components[..i])
      {
        assert components[..i + 1][..i] == components[..i];
        count := count + components[i].quantity;
      }
      assert components[..|components|] == components;
    }

    /** `compute_power_budget`: the nominal voltage in V, then a loop over the entries adding
        each current in mA times its count; the totals are written only after the loop. */
    method ComputePowerBudget(cat: Catalog) returns (o: Outcome)
      modifies this
      ensures Reported(cat, o, old(totalCurrent), old(totalPower))
      ensures name == old(name) && nominalVoltage == old(nominalVoltage) && maxOutputCurrent == old(maxOutputCurrent)
      ensures kind == old(kind) && components == old(components)
    {
      var volts := ValueInSymbol(cat, nominalVoltage, "V");
      if volts.Failure? {
        return Fail(volts.error);
      }
      var loads := Loads(components);
      var total := SumCurrents(cat, loads);
      if total.Failure? {
        BudgetFails(cat, nominalVoltage, loads, total.error);
        assert Loads(components) == loads;
        return Fail(total.error);
      }
      BudgetOf(cat, nominalVoltage, loads, total.value, volts.value);
      totalCurrent := total.value;
      totalPower := Milliwatts(total.value, volts.value);
      assert Loads(components) == loads;
      return Pass;
    }

    /** `add_component`: appends, then recomputes; the entry stays even if the recomputation
        raises. */
    method AddComponent(cat: Catalog, component: Component, quantity: int) returns (o: Outcome)
      modifies this
      ensures components == old(components) + [Entry(component, quantity)]
      ensures Reported(cat, o, old(totalCurrent), old(totalPower))
      ensures name == old(name) && nominalVoltage == old(nominalVoltage) && kind == old(kind)
      ensures maxOutputCurrent == old(maxOutputCurrent)
    {
      components := components + [Entry(component, quantity)];
      o := ComputePowerBudget(cat);
    }

    /** `remove_component`: an empty list raises ValueError; otherwise `list.pop(index)`, which
        accepts negative indices and raises IndexError outside them, then a recomputation. */
    method RemoveComponent(cat: Catalog, index: int) returns (o: Outcome)
      modifies this
      ensures old(components) == [] ==> o == Fail(ValueError("Component index not found")) && unchanged(this)
      ensures old(components) != [] && PopIndex(|old(components)|, index).None? ==>
        o == Fail(IndexError("pop index out of range")) && unchanged(this)
      ensures old(components) != [] && PopIndex(|old(components)|, index).Some? ==>
        var i := PopIndex(|old(components)|, index).value;
        components == old(components)[..i] + old(components)[i + 1..] &&
        Reported(cat, o, old(totalCurrent), old(totalPower))
      ensures name == old(name) && nominalVoltage == old(nominalVoltage) && kind == old(kind)
      ensures maxOutputCurrent == old(maxOutputCurrent)
    {
      if |components| == 0 {
        return Fail(ValueError("Component index not found"));
      }
      var position := PopIndex(|components|, index);
      if position.None? {
        return Fail(IndexError("pop index out of range"));
      }
      var i := position.value;
      components := components[..i] + components[i + 1..];
      o := ComputePowerBudget(cat);
    }

    /** The zero-count branch of `modify_component_quantity`: `remove_component` (which
        recomputes), then one more recomputation over the same entries. */
    method RemoveAndRecompute(cat: Catalog, index: int) returns (o: Outcome)
      requires 0 <= index < |components|
      modifies this
      ensures components == old(components)[..index] + old(components)[index + 1..]
      ensures Reported(cat, o, old(totalCurrent), old(totalPower))
      ensures name == old(name) && nominalVoltage == old(nominalVoltage) && kind == old(kind)
      ensures maxOutputCurrent == old(maxOutputCurrent)
    {
      assert PopIndex(|components|, index) == Some(index);
      o := RemoveComponent(cat, index);
      if o.Fail? {
        return;
      }
      ghost var loads := Loads(components);
      assert Budget(cat, nominalVoltage, loads).Success?;
      o := ComputePowerBudget(cat);
      assert Loads(components) == loads;
    }

    /** `modify_component_quantity`: an index outside [0, len) raises IndexError; a count of 0
        removes the entry; any other count replaces the entry's count; then a recomputation. */
    method ModifyComponentQuantity(cat: Catalog, index: int, newQuantity: int) returns (o: Outcome)
      modifies this
      ensures !(0 <= index < |old(components)|) ==> o == Fail(IndexError("Component index out of range.")) && unchanged(this)
      ensures 0 <= index < |old(components)| && newQuantity == 0 ==>
        components == old(components)[..index] + old(components)[index + 1..]
      ensures 0 <= index < |old(components)| && newQuantity != 0 ==>
        components == old(components)[index := old(components)[index].(quantity := newQuantity)]
      ensures 0 <= index < |old(components)| ==> Reported(cat, o, old(totalCurrent), old(totalPower))
      ensures name == old(name) && nominalVoltage == old(nominalVoltage) && kind == old(kind)
      ensures maxOutputCurrent == old(maxOutputCurrent)
    {
      if !(0 <= index < |components|) {
        return Fail(IndexError("Component index out of range."));
      }
      if newQuantity == 0 {
        o := RemoveAndRecompute(cat, index);
      } else {
        var entry := components[index];
        components := components[index := Entry(entry.component, newQuantity)];
        o := ComputePowerBudget(cat);
      }
    }
  }

  /** Appending an entry adds its current in mA times its count to the total current, and the
      power grows by that much times the voltage. */
  lemma AddedEntryBudget(cat: Catalog, nominal: Quantity, loads: seq<Load>, added: Load)
    requires Budget(cat, nominal, loads).Success?
    requires Milliamps(cat, added.current).Success?
    ensures Budget(cat, nominal, loads + [added]).Success?
    ensures Budget(cat, nominal, loads + [added]).value.0 ==
      Budget(cat, nominal, loads).value.0 + Weighted(Milliamps(cat, added.current).value, added.quantity)
  {
    assert (loads + [added])[..|loads|] == loads;
  }

  // ---------------------------------------------------------------------------------------
  // The power budget of a design

  class PowerBudget {
    var name: string
    var components: seq<Entry>
    var supplies: seq<PowerSupply>

    constructor (name: string)
      ensures this.name == name && components == [] && supplies == []
    {
      this.name := name;
      components := [];
      supplies := [];
    }

    /** `add_component`: appended without validation. */
    method AddComponent(component: Component, quantity: int)
      modifies this
      ensures components == old(components) + [Entry(component, quantity)]
      ensures supplies == old(supplies) && name == old(name)
    {
      components := components + [Entry(component, quantity)];
    }

    /** `add_power_supply`: appended without validation. */
    method AddPowerSupply(supply: PowerSupply)
      modifies this
      ensures supplies == old(supplies) + [supply]
      ensures components == old(components) && name == old(name)
    {
      supplies := supplies + [supply];
    }

    /** `remove_component`: only indices in [0, len) are accepted. */
    method RemoveComponent(index: int) returns (o: Outcome)
      modifies this
      ensures o.Fail? <==> !(0 <= index < |old(components)|)
      ensures o.Fail? ==> o.error == IndexError("Index " + IntToString(index) + " does not exist") && unchanged(this)
      ensures o.Pass? ==> components == old(components)[..index] + old(components)[index + 1..]
      ensures supplies == old(supplies) && name == old(name)
    {
      if index < 0 || index >= |components| {
        return Fail(IndexError("Index " + IntToString(index) + " does not exist"));
      }
      components := components[..index] + components[index + 1..];
      return Pass;
    }

    /** `remove_power_supply`: only indices in [0, len) are accepted. */
    method RemovePowerSupply(index: int) returns (o: Outcome)
      modifies this
      ensures o.Fail? <==> !(0 <= index < |old(supplies)|)
      ensures o.Fail? ==> o.error == IndexError("Index " + IntToString(index) + " does not exist") && unchanged(this)
      ensures o.Pass? ==> supplies == old(supplies)[..index] + old(supplies)[index + 1..]
      ensures components == old(components) && name == old(name)
    {
      if index < 0 || index >= |supplies| {
        return Fail(IndexError("Index " + IntToString(index) + " does not exist"));
      }
      supplies := supplies[..index] + supplies[index + 1..];
      return Pass;
    }
  }
}

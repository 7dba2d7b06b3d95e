/**
 * The older quantity record and conversion manager: a value with a unit name and a conversion
 * dictionary, and a manager whose loaded dictionary keeps its factor table under the key
 * "units".
 */
module LegacyQuantities {
  import opened Wrappers
  import opened Conversion

  /** A loaded conversion file: named sub-tables, the factors under "units". */
  type Conversions = map<string, Table>

  /** The older `Quantity`: fields behind plain getters and setters. */
  class Quantity {
    var value: real
    var unit: string
    var conversionDict: Option<Conversions>

    /** `Quantity(value, unit)`: no conversion dictionary yet. */
    constructor (value: real, unit: string)
      ensures this.value == value && this.unit == unit && conversionDict == None
    {
      this.value := value;
      this.unit := unit;
      conversionDict := None;
    }

    /** The `value` setter replaces the value only. */
    method SetValue(newValue: real)
      modifies this
      ensures value == newValue && unit == old(unit) && conversionDict == old(conversionDict)
    {
      value := newValue;
    }

    /** The `unit` setter replaces the unit only. */
    method SetUnit(newUnit: string)
      modifies this
      ensures unit == newUnit && value == old(value) && conversionDict == old(conversionDict)
    {
      unit := newUnit;
    }

    /** The `conversion_dict` setter replaces the dictionary only. */
    method SetConversionDict(newDict: Option<Conversions>)
      modifies this
      ensures conversionDict == newDict && value == old(value) && unit == old(unit)
    {
      conversionDict := newDict;
    }

    /** The base class's `convert_to` always raises; subclasses must override it. */
    method ConvertTo() returns (o: Outcome)
      ensures o.Fail? && o.error == NotImplementedError("Specific quantities must implement this method")
    {
      return Fail(NotImplementedError("Specific quantities must implement this method"));
    }
  }

  /** The older `BaseConversionManager.convert`: reading the "units" table raises KeyError when
      it is missing; then the same checks and arithmetic as the newer manager. */
  function ConvertUnits(conversions: Conversions, value: real, fromUnit: string, toUnit: string): (r: Result<real>)
    ensures "units" !in conversions ==> r == Failure(KeyError("units"))
    ensures "units" in conversions && fromUnit !in conversions["units"] ==> r == Failure(ValueError("Unknown from unit: " + fromUnit))
    ensures "units" in conversions && fromUnit in conversions["units"] && toUnit !in conversions["units"] ==>
      r == Failure(ValueError("Unknown to unit: " + toUnit))
    ensures "units" in conversions ==> r == Convert(conversions["units"], value, fromUnit, toUnit)
  {
    if "units" !in conversions then Failure(KeyError("units"))
    else Convert(conversions["units"], value, fromUnit, toUnit)
  }

  /** With nonzero factors, converting there and back gives the value back. */
  lemma ConvertUnitsRoundTrip(conversions: Conversions, value: real, a: string, b: string)
    requires "units" in conversions
    requires a in conversions["units"] && b in conversions["units"]
    requires conversions["units"][a] != 0.0 && conversions["units"][b] != 0.0
    ensures ConvertUnits(conversions, value, a, b).Success?
    ensures ConvertUnits(conversions, ConvertUnits(conversions, value, a, b).value, b, a) == Success(value)
    ensures ConvertUnits(conversions, value, a, b).value * conversions["units"][b] == value * conversions["units"][a]
  {
    ConvertRoundTrip(conversions["units"], value, a, b);
  }
}

/**
 * The conversion managers: a table per quantity type that maps each unit symbol to its factor
 * to the type's base unit (linear types), or to a pair of functions to and from the base unit
 * (temperature). Loading a table from its JSON file is left to the caller: the model receives
 * the loaded table.
 */
module Conversion {
  import opened Wrappers

  /** A linear conversion table: unit symbol to factor, so that value_in_base = value * factor. */
  type Table = map<string, real>

  /** A table whose every factor can be divided by. */
  predicate NonZeroFactors(table: Table) {
    forall u :: u in table ==> table[u] != 0.0
  }

  /** `BaseConversionManager.convert`: unknown source unit first, then unknown target unit,
      then the value goes to the base unit and on to the target. A zero target factor makes
      Python's float division raise ZeroDivisionError. */
  function Convert(table: Table, value: real, fromUnit: string, toUnit: string): (r: Result<real>)
    ensures fromUnit !in table ==> r == Failure(ValueError("Unknown from unit: " + fromUnit))
    ensures fromUnit in table && toUnit !in table ==> r == Failure(ValueError("Unknown to unit: " + toUnit))
    ensures fromUnit in table && toUnit in table ==> (r.Failure? <==> table[toUnit] == 0.0)
    ensures fromUnit in table && toUnit in table && r.Failure? ==> r.error == ZeroDivisionError
    ensures r.Success? ==> r.value * table[toUnit] == value * table[fromUnit]
  {
    if fromUnit !in table then Failure(ValueError("Unknown from unit: " + fromUnit))
    else if toUnit !in table then Failure(ValueError("Unknown to unit: " + toUnit))
    else if table[toUnit] == 0.0 then Failure(ZeroDivisionError)
    else
      var inBase := value * table[fromUnit];
      Success(inBase / table[toUnit])
  }

  /** `convert` called with unit objects rather than symbols: each unit is looked up by its
      key, but the unknown-unit messages print the unit as `str` renders it (`fromShown`,
      `toShown`). Once both keys are known, this is `Convert` on the keys. */
  function ConvertShown(table: Table, value: real, fromKey: string, fromShown: string,
                        toKey: string, toShown: string): (r: Result<real>)
    ensures fromKey !in table ==> r == Failure(ValueError("Unknown from unit: " + fromShown))
    ensures fromKey in table && toKey !in table ==> r == Failure(ValueError("Unknown to unit: " + toShown))
    ensures fromKey in table && toKey in table ==> r == Convert(table, value, fromKey, toKey)
  {
    if fromKey !in table then Failure(ValueError("Unknown from unit: " + fromShown))
    else if toKey !in table then Failure(ValueError("Unknown to unit: " + toShown))
    else Convert(table, value, fromKey, toKey)
  }

  /** Converting to the unit one starts from gives the value back. */
  lemma ConvertIdentity(table: Table, value: real, u: string)
    requires u in table && table[u] != 0.0
    ensures Convert(table, value, u, u) == Success(value)
  {
  }

  /** Converting there and back gives the value back. */
  lemma ConvertRoundTrip(table: Table, value: real, a: string, b: string)
    requires a in table && b in table && table[a] != 0.0 && table[b] != 0.0
    ensures Convert(table, value, a, b).Success?
    ensures Convert(table, Convert(table, value, a, b).value, b, a) == Success(value)
  {
    var there := Convert(table, value, a, b).value;
    assert there * table[b] == value * table[a];
    var back := Convert(table, there, b, a).value;
    assert back * table[a] == there * table[b];
    CancelFactor(back, value, table[a]);
  }

  lemma CancelFactor(x: real, y: real, f: real)
    requires f != 0.0 && x * f == y * f
    ensures x == y
  {
    assert (x - y) * f == 0.0;
  }

  /** Converting through an intermediate unit is the same as converting directly. */
  lemma ConvertCompose(table: Table, value: real, a: string, b: string, c: string)
    requires a in table && b in table && c in table
    requires table[b] != 0.0 && table[c] != 0.0
    ensures Convert(table, Convert(table, value, a, b).value, b, c) == Convert(table, value, a, c)
  {
    var mid := Convert(table, value, a, b).value;
    var direct := Convert(table, value, a, c).value;
    var viaMid := Convert(table, mid, b, c).value;
    assert mid * table[b] == value * table[a];
    assert viaMid * table[c] == mid * table[b];
    assert direct * table[c] == value * table[a];
  }

  /** Conversion is linear: the conversion of a sum is the sum of the conversions. */
  lemma ConvertAdditive(table: Table, x: real, y: real, a: string, b: string)
    requires a in table && b in table && table[b] != 0.0
    ensures Convert(table, x + y, a, b).value == Convert(table, x, a, b).value + Convert(table, y, a, b).value
  {
    var cx := Convert(table, x, a, b).value;
    var cy := Convert(table, y, a, b).value;
    var cs := Convert(table, x + y, a, b).value;
    assert cs * table[b] == (cx + cy) * table[b];
  }

  /** With positive factors, conversion keeps the order of values. */
  lemma ConvertMonotone(table: Table, x: real, y: real, a: string, b: string)
    requires a in table && b in table && table[a] > 0.0 && table[b] > 0.0
    requires x < y
    ensures Convert(table, x, a, b).value < Convert(table, y, a, b).value
  {
    var cx := Convert(table, x, a, b).value;
    var cy := Convert(table, y, a, b).value;
    assert x * table[a] < y * table[a];
    assert cx * table[b] < cy * table[b];
  }

  // ---------------------------------------------------------------------------------------
  // Temperature

  /** One temperature unit: the functions its table entry describes to and from kelvin. */
  datatype TemperatureEntry = TemperatureEntry(toBase: real -> real, fromBase: real -> real)

  type TemperatureTable = map<string, TemperatureEntry>

  /** `fromBase` undoes `toBase` and the other way round. */
  ghost predicate Inverse(e: TemperatureEntry) {
    (forall x :: e.fromBase(e.toBase(x)) == x) && (forall x :: e.toBase(e.fromBase(x)) == x)
  }

  /** `TemperatureConversionManager.convert`: the same unit checks, then the source unit's
      to-base function followed by the target unit's from-base function. */
  function ConvertTemperature(table: TemperatureTable, value: real, fromUnit: string, toUnit: string): (r: Result<real>)
    ensures fromUnit !in table ==> r == Failure(ValueError("Unknown from unit: " + fromUnit))
    ensures fromUnit in table && toUnit !in table ==> r == Failure(ValueError("Unknown to unit: " + toUnit))
    ensures r.Success? <==> fromUnit in table && toUnit in table
    ensures r.Success? && Inverse(table[toUnit]) ==> table[toUnit].toBase(r.value) == table[fromUnit].toBase(value)
  {
    if fromUnit !in table then Failure(ValueError("Unknown from unit: " + fromUnit))
    else if toUnit !in table then Failure(ValueError("Unknown to unit: " + toUnit))
    else
      var inBase := table[fromUnit].toBase(value);
      Success(table[toUnit].fromBase(inBase))
  }

  /** With inverse entries, a temperature converted there and back is unchanged. */
  lemma TemperatureRoundTrip(table: TemperatureTable, value: real, a: string, b: string)
    requires a in table && b in table && Inverse(table[a]) && Inverse(table[b])
    ensures ConvertTemperature(table, ConvertTemperature(table, value, a, b).value, b, a) == Success(value)
  {
    var inBase := table[a].toBase(value);
    assert table[b].toBase(table[b].fromBase(inBase)) == inBase;
    assert table[a].fromBase(inBase) == value;
  }

  /** Illustrative entries for Celsius, Kelvin and Fahrenheit, with Kelvin as the base scale.
      They stand in for a loaded temperature table, which is not part of this model. */
  function TemperatureScales(): TemperatureTable {
    map[
      "°C" := TemperatureEntry(x => x + 273.15, x => x - 273.15),
      "K" := TemperatureEntry(x => x, x => x),
      "°F" := TemperatureEntry(x => (x - 32.0) * 5.0 / 9.0 + 273.15, x => (x - 273.15) * 9.0 / 5.0 + 32.0)
    ]
  }

  /** On the illustrative scales, water boils at 100 degrees Celsius, 212 degrees Fahrenheit. */
  lemma BoilingPoint()
    ensures ConvertTemperature(TemperatureScales(), 100.0, "°C", "°F") == Success(212.0)
  {
  }
}

# physical-quantities in Dafny

A Dafny model of the core of the `physical-quantities` Python package. The package gives
physical values units and puts them to work in a small power-budget tool. The model covers:

- **Dimensions and units** (`units.dfy`, module `Units`). `Dimensions` is an ordered dict from
  a base-dimension letter to an integer exponent. Multiplying adds exponents, dividing
  subtracts them, and a zero exponent is removed. `Unit` adds a name and a symbol. It
  supports `*`, `/`, a compatibility test and string rendering. The dict keeps insertion
  order, so it is modelled as a sequence of (letter, exponent) pairs with distinct letters.
  The `Dimensions` class keeps that sequence as a field that its methods reassign.
- **Conversion managers** (`conversion.dfy`, module `Conversion`).
  - A linear manager converts through a table of factors to the base unit.
  - The temperature manager converts through a pair of functions per scale.
- **Quantities** (`quantities.dfy`, module `Quantities`). A quantity is a value with a unit
  and a kind; the kind stands for the Python subclass, such as `VoltageQuantity`. The model
  covers conversion, `+`, `-`, `*`, `/`, comparison and construction. A `Catalog` maps each
  quantity type to its conversion table. It stands in for the JSON files the managers load.
- **Components, power supplies and budgets** (`power.dfy`, module `PowerSystem`).
  - A `Component` derives the missing one of voltage, current and power from the other two.
  - Batteries and voltage regulators validate their parameters.
  - A power supply keeps a list of (component, quantity) entries. It recomputes its total
    current (mA) and total power (mW) each time the list changes.
  - A `PowerBudget` keeps lists of components and supplies.
- **AC quantities** (`electrical.dfy`, module `ElectricalQuantities`). `normalize_phase` maps
  an angle into (-pi, pi] radians with two loops. `AC_Voltage` checks the frequency, computes
  the amplitude and normalises the phase.
- **The older quantity record** (`legacy_quantity.dfy`, module `LegacyQuantities`). This is
  a class with plain setters, plus the manager that reads its table from the key `"units"`.

Every Python exception becomes a `Failure` carrying the exception class and its message
(module `Wrappers`). The model carries each operation's error branches, and the messages the
source writes out. Errors that Python raises by itself carry a stand-in message, and their
contracts pin only the exception class. These are an unsupported operand after
`NotImplemented`, a missing attribute, and the TypeError of `is_compatible_with`.
A method that changes an object and may raise returns an `Outcome`. For the setters and the
`compute_*` methods of a component, and for the edits of a `PowerBudget`, `Fail` leaves the
object unchanged, because each check in the source runs before its first assignment. The
list edits of a `PowerSupply` are the exception: `add_component` appends and
`remove_component` pops before `compute_power_budget` runs, so the list has changed even
when the recomputation then fails.

## Model

| member | source | states |
|---|---|---|
| Units.Get | modules/unit.py:18-20 | A missing letter reads as exponent 0. In a map without zero entries, an exponent is nonzero exactly when the letter is stored. |
| Units.Set | modules/unit.py:11-16 | Setting a letter keeps the stored letters distinct. |
| Units.SetFacts | modules/unit.py:11-16 | Setting 0 removes the letter; other values replace it in place or append it. The other letters are unchanged, and no zero exponent is stored. |
| Units.IndexOf | modules/unit.py:14-16 | Finds the first and only position of a stored letter. |
| Units.RemoveFacts | modules/unit.py:13-14 | Popping a letter removes exactly that letter and leaves the other exponents as they were. |
| Units.PutFacts | modules/unit.py:16 | Dict assignment updates the letter in place when present, appends it otherwise, and changes nothing else. |
| Units.OwnKeys | modules/unit.py:35-36 | The first loop of `*` and `/` only stores letters of the left operand, and never a zero exponent. |
| Units.ExtraKeys | modules/unit.py:37-39 | The second loop only adds letters of the right operand that the left operand lacks, and never a zero exponent. |
| Units.OwnGet | modules/unit.py:35-36 | After the first loop, each left letter holds its combined exponent and every other letter reads 0. |
| Units.ExtraGet | modules/unit.py:37-39 | After the second loop, each right-only letter holds its (signed) exponent. |
| Units.CombineExponents | modules/unit.py:32-50 | For both `*` and `/`, the result has distinct letters and no zero exponent. Each exponent is the left one plus (or minus) the right one. |
| Units.ProductExponents | modules/unit.py:32-40 | `Dimensions.__mul__` adds exponents letter by letter. |
| Units.QuotientExponents | modules/unit.py:42-50 | `Dimensions.__truediv__` subtracts exponents letter by letter. |
| Units.ProductCommutes | modules/unit.py:32-40 | Product dimensions are equal as dicts whichever operand comes first, though their letter order may differ. |
| Units.QuotientCancelsProduct | modules/unit.py:32-50 | Multiplying by `b` and then dividing by `b` gives back the original exponents. |
| Units.SelfQuotientEmpty | modules/unit.py:42-50 | Dividing a dimension map by itself gives the empty (dimensionless) map. |
| Units.CombineLastLetter | modules/unit.py:32-50 | Combining a map whose last letter is `k` with the map holding only `k` keeps the other entries. It puts the combined exponent of `k` last, or drops `k` when the exponents cancel. |
| Units.DisjointProductConcatenates | modules/unit.py:32-40 | When the operands share no letter, the product lists the left letters, then the right ones, unchanged. |
| Units.OwnStep | modules/unit.py:35-36 | One iteration of the first loop assigns the combined exponent of the next left letter. |
| Units.ExtraStep | modules/unit.py:37-39 | One iteration of the second loop assigns the next right-only letter and skips shared ones. |
| Units.NatToString | modules/unit.py:29 | Exponent text is a non-empty string of decimal digits that denotes the exponent (`DigitsValue`), with no leading zero unless the number is 0. |
| Units.DimStringStartsWithFirstLetter | modules/unit.py:22-30 | A non-empty map renders starting with its first letter. |
| Units.DimensionlessStringIffEmpty | modules/unit.py:30 | A map renders as "dimensionless" exactly when it is empty. |
| Units.MassFlowRateString | modules/unit.py:22-30 | `{M:1, T:-1}` renders as `M*T^-1`. |
| Units.VoltageString | modules/unit.py:22-30 | The volt's dimensions render as `M*L^2*T^-3*I^-1`. |
| Units.Dimensions.constructor | modules/unit.py:4-5 | A new object holds the given map. |
| Units.Dimensions.SetItem | modules/unit.py:11-16 | `__setitem__` replaces the object's map with the result of setting the letter and keeps the dict invariant. |
| Units.Dimensions.Combined | modules/unit.py:32-50 | The two loops build a fresh object holding exactly the combined map. |
| Units.Dimensions.Multiply | modules/unit.py:32-40 | `__mul__` returns a fresh object with the product map. |
| Units.Dimensions.Divide | modules/unit.py:42-50 | `__truediv__` returns a fresh object with the quotient map. |
| Units.Dimensions.ToString | modules/unit.py:22-30 | The rendering loop yields the joined `letter^exp` text, or "dimensionless" for an empty map. |
| Units.Multiply | modules/unit.py:99-107 | A non-unit operand raises the TypeError. Otherwise the name and symbol are joined with `*`, the dimensions are `Product` of the two maps in its key order, and the exponents add. |
| Units.DivideAsWritten | modules/unit.py:109-117 | As written, the quotient's name is joined with `*`, while its symbol is joined with `/`. A non-unit operand raises the TypeError. The dimensions are `Quotient` of the two maps in its key order, and the exponents subtract. |
| Units.DivideNameCollides | modules/unit.py:104-114 | As written, `a / b` and `a * b` carry the same name. |
| Units.Divide | modules/unit.py:109-117 | A non-unit operand raises the TypeError. Otherwise the name and symbol are joined with `/`, the dimensions are `Quotient` of the two maps in its key order, and the exponents subtract. |
| Units.DivideNameDistinct | modules/unit.py:114 | With `/` in the name, a quotient is never named like the product. |
| Units.IsCompatibleWith | modules/physical_quantities.py:20-21 | Two units are compatible exactly when they have the same letters with the same exponents. A non-unit argument is a TypeError. |
| Units.SpeedCompatibility | modules/physical_quantities.py:129-130 | `m/s` is compatible with `cm/s` but not with `m/s^2`. |
| Units.Renamed | modules/unit.py:54-62 | Renaming maps each letter to its SI symbol, position by position. |
| Units.SymbolPartsRenames | modules/unit.py:84-88 | When no two letters map to one symbol, the first loop of `Unit.__str__` is exactly the renamed map. |
| Units.SymbolCollisionMerges | modules/unit.py:84-88 | A letter and a raw symbol that map to the same key collapse into one entry, and the later exponent wins. |
| Units.UnitStringRenames | modules/unit.py:82-97 | A unit with dimensions renders its renamed exponents; a dimensionless unit renders its symbol. |
| Units.SymbolPartsStep | modules/unit.py:85-88 | Each iteration of the first loop stores the next symbol with its exponent. |
| Units.FormatUnit | modules/unit.py:82-97 | The two loops of `Unit.__str__` yield exactly the specified rendering. |
| Conversion.Convert | modules/conversion_managers.py:37-45 | An unknown source unit or target unit fails with its message, and a zero target factor divides by zero. Otherwise `result * factor(to) == value * factor(from)`. |
| Conversion.ConvertShown | modules/conversion_managers.py:37-41 | `convert` given unit objects: each unit is looked up by its key, an unknown source unit fails before an unknown target unit, and each message prints the unit as rendered. With both keys known the result is `Convert`'s. |
| Conversion.ConvertIdentity | modules/conversion_managers.py:37-45 | Converting to the same unit returns the value. |
| Conversion.ConvertRoundTrip | modules/conversion_managers.py:37-45 | With nonzero factors, converting there and back returns the value. |
| Conversion.ConvertCompose | modules/conversion_managers.py:37-45 | Converting a to b and then b to c equals converting a to c. |
| Conversion.ConvertAdditive | modules/conversion_managers.py:44-45 | Conversion is additive: `conv(x + y) == conv(x) + conv(y)`. |
| Conversion.ConvertMonotone | modules/conversion_managers.py:44-45 | With positive factors, conversion keeps strict order. |
| Conversion.ConvertTemperature | modules/conversion_managers.py:52-62 | An unknown unit fails with its message; otherwise it succeeds. When the target's two functions are inverse, result and input agree on the base scale. |
| Conversion.TemperatureRoundTrip | modules/conversion_managers.py:52-62 | With inverse function pairs, converting there and back returns the value. |
| Conversion.BoilingPoint | modules/conversion_managers.py:52-62 | An illustration over Celsius, Kelvin and Fahrenheit entries written out here: 100 °C converts to 212 °F. The package's own temperature tables are not part of this model. |
| Quantities.VoltTimesAmpereIsWatt | modules/unit.py:99-107 | The product of volt and ampere is compatible with the watt. |
| Quantities.WattTimesSecondIsJoule | modules/unit.py:99-107 | The product of watt and second is compatible with the joule. |
| Quantities.AmpereTimesSecondIsCoulomb | modules/unit.py:99-107 | The product of ampere and second is compatible with the coulomb. |
| Quantities.VoltOverAmpereIsOhm | modules/unit.py:109-117 | The quotient of volt and ampere is compatible with the ohm. |
| Quantities.New | modules/physical_quantities.py:81-86 | Instantiating `BaseQuantity` itself raises the TypeError; a concrete class keeps the value and unit. |
| Quantities.ConvertTo | modules/physical_quantities.py:124-136 | An identical unit returns a copy. An incompatible unit fails with the message. A unit whose symbol the table lacks fails with the "Unknown from unit" or "Unknown to unit" message, which prints the unit as `Unit.__str__` renders it, the source unit first. Otherwise success and failure follow `Convert`, the result is in the target unit, and its value follows the table relation of `Convert`. |
| Quantities.ConvertToRoundTrip | modules/physical_quantities.py:124-136 | With nonzero factors, converting to a compatible unit and back gives the original quantity. |
| Quantities.AssertCompatible | modules/physical_quantities.py:14-21 | Passes exactly for a quantity of the same class in a compatible unit. A non-quantity and another class are TypeErrors, and an incompatible unit is a ValueError, each with its message. |
| Quantities.Add | modules/physical_quantities.py:23-28 | Compatibility failures propagate. Once the operands are compatible, the sum succeeds exactly when the right operand converts into the left unit, and a conversion error is the error returned. The sum is in the left operand's unit and adds the converted right operand. |
| Quantities.Sub | modules/physical_quantities.py:30-35 | Compatibility failures propagate. Once the operands are compatible, the difference succeeds exactly when the right operand converts into the left unit, and a conversion error is the error returned. The difference is in the left operand's unit and subtracts the converted right operand. |
| Quantities.AddThenSub | modules/physical_quantities.py:23-35 | Adding and then subtracting the same quantity gives the original back. |
| Quantities.AddCommutesInOneUnit | modules/physical_quantities.py:23-28 | In a single unit, addition succeeds and commutes. |
| Quantities.Mul | modules/physical_quantities.py:48-57 | A non-quantity gives NotImplemented (a TypeError). Otherwise values multiply, units multiply, and the class is the left one's. |
| Quantities.Div | modules/physical_quantities.py:37-46 | A non-quantity is a TypeError and a zero divisor a ZeroDivisionError. Otherwise `result * divisor == dividend` and the units divide. |
| Quantities.MulThenDiv | modules/physical_quantities.py:37-57 | Multiplying and then dividing by a nonzero quantity gives back the value, the class and a compatible unit. |
| Quantities.Compare | modules/physical_quantities.py:59-79 | A non-quantity is only "not equal" (`<` and `>` raise TypeError). Another class raises the "Cannot compare different quantity types" TypeError. A ValueError from the conversion becomes the "Cannot compare incompatible units" ValueError, and other errors propagate. Otherwise the values compare after converting into the left unit. |
| Quantities.CompareReflexive | modules/physical_quantities.py:59-79 | A quantity equals itself and is neither less nor greater. |
| Quantities.CompareTrichotomy | modules/physical_quantities.py:59-79 | Whenever the equality comparison succeeds, `<` and `>` succeed too, and exactly one of `==`, `<`, `>` holds. |
| Quantities.CompareConverse | modules/physical_quantities.py:75-79 | For compatible units of one class whose factors are positive, `a < b` and `b > a` both succeed and agree, although they convert in opposite directions. |
| Quantities.ValueInSymbol | modules/power_supply.py:81-85 | Reading a value in a named unit returns the value when the symbol matches; otherwise it converts through the table. |
| PowerSystem.PowerFrom | modules/component.py:43-44 | `compute_power` succeeds exactly when both conversions do. The result is a power in watts equal to volts times amperes. |
| PowerSystem.CurrentFrom | modules/component.py:46-47 | The power's conversion error comes first, then the voltage's. A zero voltage raises ZeroDivisionError. The result is a current in amperes with `I * V == P`. |
| PowerSystem.VoltageFrom | modules/component.py:49-50 | The power's conversion error comes first, then the current's. A zero current raises ZeroDivisionError. The result is a voltage in volts with `V * I == P`. |
| PowerSystem.Derive | modules/component.py:23-37 | Voltage and current give the power `PowerFrom`. Voltage and power without current give the current `CurrentFrom`. Current and power without voltage give the voltage `VoltageFrom`. In each case a failure of the derivation is the error returned, and success holds all three quantities. |
| PowerSystem.DeriveNeedsTwo | modules/component.py:30-37 | The constructor raises "At least two parameters ..." exactly when fewer than two of voltage, current and power are given. |
| PowerSystem.DerivePowerWins | modules/component.py:30-31 | With voltage and current given, a supplied power is ignored and recomputed. |
| PowerSystem.DeriveCurrentBack | modules/component.py:43-47 | With a nonzero voltage, the current derived from the computed power gives the current back in amperes. |
| PowerSystem.DeriveVoltageBack | modules/component.py:43-50 | With a nonzero current, the voltage derived from the computed power gives the voltage back in volts. |
| PowerSystem.EnergyFrom | modules/component.py:40-41 | Without a power the attribute access fails. Otherwise it succeeds exactly when both conversions do, and a conversion error (power first) is the error returned. The energy is in joules, equal to watts times seconds; in W and s no conversion is involved. |
| PowerSystem.Component.Raw | modules/component.py:23-28 | The raw constructor stores the five fields. |
| PowerSystem.Component.Create | modules/component.py:23-37 | Construction fails exactly as `Derive` does, with its error. Otherwise it returns a fresh component whose electrical fields are the derived ones. |
| PowerSystem.Component.ComputePower | modules/component.py:43-44 | On success the power field holds `PowerFrom` of the stored voltage and current, and nothing else changes. On failure the object is unchanged. |
| PowerSystem.Component.ComputeCurrent | modules/component.py:46-47 | On success the current field holds `CurrentFrom`, and nothing else changes. On failure the object is unchanged. |
| PowerSystem.Component.ComputeVoltage | modules/component.py:49-50 | On success the voltage field holds `VoltageFrom`, and nothing else changes. On failure the object is unchanged. |
| PowerSystem.Component.SetVoltage | modules/component.py:66-69 | Rejects a non-voltage with its message and leaves the object unchanged. Otherwise it stores the value, which may be None. |
| PowerSystem.Component.SetCurrent | modules/component.py:76-79 | Rejects a non-current with its message and leaves the object unchanged. Otherwise it stores the value. |
| PowerSystem.Component.SetPower | modules/component.py:86-89 | Rejects a non-power with its message and leaves the object unchanged. Otherwise it stores the value. |
| PowerSystem.Component.SetPowerSupply | modules/component.py:96-99 | Rejects a missing supply with its message. Otherwise it stores the supply and nothing else changes. |
| PowerSystem.Loads | modules/power_supply.py:82-86 | The budget reads exactly each entry's current and count, in order. |
| PowerSystem.Milliamps | modules/power_supply.py:85 | A missing current fails on the attribute access. Otherwise the current is read in mA. |
| PowerSystem.Budget | modules/power_supply.py:78-92 | The voltage is read in V first and its failure wins. The budget succeeds exactly when every load's current can be read in mA. The totals are the count-weighted mA sum and that sum times the volts. |
| PowerSystem.BudgetFails | modules/power_supply.py:78-86 | Once the volts are read, an unreadable current makes the whole budget fail with that error. |
| PowerSystem.SumCurrents | modules/power_supply.py:82-86 | The loop returns exactly the count-weighted mA total, or the error of the first unreadable current. |
| PowerSystem.BudgetOf | modules/power_supply.py:78-92 | Given the volts and the current total, the budget is (current, current × volts). |
| PowerSystem.EmptyBudget | modules/power_supply.py:78-92 | With no components, the budget is 0 mA and 0 mW. |
| PowerSystem.CurrentTotalConcat | modules/power_supply.py:82-86 | The current total over two lists is the sum of their totals, and the first failure is the one reported. |
| PowerSystem.CurrentTotalInMilliamps | modules/power_supply.py:82-86 | When every current is already in mA, the total is the plain weighted sum. |
| PowerSystem.CurrentTotalStops | modules/power_supply.py:82-86 | The first unreadable current aborts the loop with its error. |
| PowerSystem.AddedEntryBudget | modules/power_supply.py:54-92 | Appending an entry adds its weighted current to the total current. |
| PowerSystem.QuantitySumConcat | modules/power_supply.py:27-32 | The component count is additive over concatenation. |
| PowerSystem.QuantitySumEdits | modules/power_supply.py:58-76 | Changing an entry's quantity changes the count by the difference; removing an entry subtracts its quantity. |
| PowerSystem.PopIndex | modules/power_supply.py:60 | `list.pop(index)` accepts exactly `-n <= index < n` and counts negative indices from the end. |
| PowerSystem.PopLast | modules/power_supply.py:60 | Index -1 and index n-1 name the same last entry. |
| PowerSystem.Battery | modules/power_supply.py:108-124 | The three checks run in order with their messages. The nominal voltage is the cell count times the cell voltage, in the cell's unit, and is at least the cell voltage. |
| PowerSystem.IndexIn | modules/power_supply.py:292 | `tuple.index` finds the first position of the element. |
| PowerSystem.LithiumBattery | modules/power_supply.py:276-293 | An unknown subchemistry is rejected. "Other" needs a cell voltage; None means "LiPo". For an accepted subchemistry the result is `Battery` with the chosen cell voltage (the tabulated one in V, or the supplied one for "Other"), so its checks and its nominal voltage apply. |
| PowerSystem.LithiumIgnoresSuppliedVoltage | modules/power_supply.py:292 | For a listed subchemistry, a supplied cell voltage makes no difference. |
| PowerSystem.LithiumDefaultExample | modules/power_supply.py:276-293 | One LiPo cell gives 3.7 V; None behaves as "LiPo". |
| PowerSystem.LithiumIonExample | modules/power_supply.py:276-293 | Two Li-ion cells give 7.2 V. |
| PowerSystem.LeadAcidBattery | modules/power_supply.py:295-306 | Succeeds exactly for a positive count and a non-negative capacity, with 2 V per cell. A bad count and then a negative capacity fail with their messages. |
| PowerSystem.LeadAcidExamples | modules/power_supply.py:295-306 | Six cells give 12 V and three give 6 V. |
| PowerSystem.VoltageRegulator | modules/power_supply.py:179-230 | A comparison failure propagates. Minimum above maximum, and then an efficiency outside [0, 1], fail with their messages. Otherwise the regulator records the type, range and efficiency. |
| PowerSystem.BuckConverter | modules/power_supply.py:250-254 | A comparison failure is the error returned, and a nominal voltage above the minimum input is rejected with its message. Otherwise the regulator checks decide. It succeeds exactly when all checks pass, recording the name, voltages, current, efficiency and the type "Buck". |
| PowerSystem.BoostConverter | modules/power_supply.py:261-265 | A comparison failure is the error returned, and a nominal voltage below the maximum input is rejected with its message. Otherwise the regulator checks decide. It succeeds exactly when all checks pass, recording the name, voltages, current, efficiency and the type "Boost". |
| PowerSystem.BuckBoostConverter | modules/power_supply.py:272-274 | A comparison failure is the error returned. The input-range and efficiency checks fail with their messages. Otherwise it succeeds, recording the type "Buck-Boost". |
| PowerSystem.ConverterRanges | modules/power_supply.py:250-274 | In one unit: buck needs nominal ≤ min ≤ max, boost needs min ≤ max ≤ nominal, and both need efficiency in [0, 1]. |
| PowerSystem.PowerSupply.constructor | modules/power_supply.py:10-17 | A supply starts with no components, 0 mA and 0 mW. |
| PowerSystem.PowerSupply.TotalComponents | modules/power_supply.py:27-32 | The loop returns the sum of the entry quantities. |
| PowerSystem.PowerSupply.ComputePowerBudget | modules/power_supply.py:78-92 | The reported outcome and totals are those of `Budget`; on failure the totals are kept. The component list and the other fields do not change. |
| PowerSystem.PowerSupply.AddComponent | modules/power_supply.py:54-56 | Appends the entry and then reports the new budget. The name, voltages, maximum output current and kind are kept. |
| PowerSystem.PowerSupply.RemoveComponent | modules/power_supply.py:58-63 | An empty list raises "Component index not found"; an out-of-range index raises the pop IndexError. Otherwise it removes that entry and reports the new budget. The supply's other fields are kept. |
| PowerSystem.PowerSupply.ModifyComponentQuantity | modules/power_supply.py:65-76 | An index outside `[0, n)` raises the IndexError. Quantity 0 removes the entry; any other quantity replaces it in place. The budget is then recomputed, and the supply's other fields are kept. |
| PowerSystem.PowerSupply.RemoveAndRecompute | modules/power_supply.py:68-74 | A zero quantity removes the entry through `remove_component`, then the budget is recomputed. The other entries and the supply's fields are unchanged. |
| PowerSystem.PowerBudget.constructor | modules/power_budget.py:542-545 | A budget starts with no components and no supplies. |
| PowerSystem.PowerBudget.AddComponent | modules/power_budget.py:563-564 | Appends the entry and leaves the supplies unchanged. |
| PowerSystem.PowerBudget.AddPowerSupply | modules/power_budget.py:566-567 | Appends the supply and leaves the components unchanged. |
| PowerSystem.PowerBudget.RemoveComponent | modules/power_budget.py:569-572 | Fails with "Index i does not exist" exactly when the index is outside `[0, n)`. Otherwise it removes that entry only. |
| PowerSystem.PowerBudget.RemovePowerSupply | modules/power_budget.py:574-577 | Fails with "Index i does not exist" exactly when the index is outside `[0, n)`. Otherwise it removes that supply only. |
| ElectricalQuantities.Principal | modules/electrical_quantitites.py:17-21 | The representative lies in (-pi, pi] and differs from the input by a whole number of turns. |
| ElectricalQuantities.PrincipalUnique | modules/electrical_quantitites.py:17-21 | Any value in (-pi, pi] that differs by whole turns is that representative. |
| ElectricalQuantities.PrincipalFixes | modules/electrical_quantitites.py:17-21 | Angles already in range are fixed, and normalising is idempotent. |
| ElectricalQuantities.NormalizeRadians | modules/electrical_quantitites.py:18-21 | The two loops end in (-pi, pi] at the principal representative. |
| ElectricalQuantities.NormalizedPhase | modules/electrical_quantitites.py:8-22 | The angle keeps its class and unit. An angle unit missing from the table fails with "Unknown from unit: " and the unit as `Unit.__str__` renders it; a table without `rad` fails with "Unknown to unit: rad"; otherwise a failed conversion to radians is the error returned. |
| ElectricalQuantities.NormalizePhase | modules/electrical_quantitites.py:8-22 | The loop version computes exactly the normalised angle. |
| ElectricalQuantities.NormalizedPhaseIdempotent | modules/electrical_quantitites.py:8-22 | Read in radians, the normalised angle is the principal value. Normalising twice equals normalising once. |
| ElectricalQuantities.NormalizedPhaseKeepsPrincipal | modules/electrical_quantitites.py:8-22 | A radian angle already in (-pi, pi] is left as it is. |
| ElectricalQuantities.ACVoltageOf | modules/electrical_quantitites.py:24-41 | A frequency at or below 1e-6 is rejected with its message. Otherwise a failure to normalise the phase is the error returned. On success the amplitude is RMS × √2 in the RMS unit, and the phase is normalised. |
| ElectricalQuantities.FrequencyTest | modules/electrical_quantitites.py:35 | "Negative or close to zero" is exactly "at most 1e-6". |
| ElectricalQuantities.MainsAmplitude | modules/electrical_quantitites.py:38 | 230 V RMS has amplitude 230·√2 V. |
| ElectricalQuantities.ACVoltageAsWritten | modules/electrical_quantitites.py:25-40 | With an explicit phase it is the constructor. Without one, the integer default reaches `normalize_phase`. |
| ElectricalQuantities.DefaultPhaseFails | modules/electrical_quantitites.py:14-25 | Omitting the phase never yields an AC voltage. Once the frequency is accepted, it fails with the AttributeError. |
| ElectricalQuantities.ACVoltageWithDefault | modules/electrical_quantitites.py:25-40 | An explicit phase behaves as written; an omitted one is 0 degrees. |
| ElectricalQuantities.DefaultPhaseIsZero | modules/electrical_quantitites.py:25-40 | With the corrected default, omitting the phase yields an AC voltage with phase 0 degrees. |
| ElectricalQuantities.NewACVoltage | modules/electrical_quantitites.py:24-41 | The method computes exactly the constructor's result. |
| LegacyQuantities.Quantity.constructor | modules/quantities/quantity.py:7-10 | Stores the value and unit, with no conversion dictionary. |
| LegacyQuantities.Quantity.SetValue | modules/quantities/quantity.py:19-21 | Replaces only the value. |
| LegacyQuantities.Quantity.SetUnit | modules/quantities/quantity.py:27-29 | Replaces only the unit. |
| LegacyQuantities.Quantity.SetConversionDict | modules/quantities/quantity.py:36-38 | Replaces only the conversion dictionary. |
| LegacyQuantities.Quantity.ConvertTo | modules/quantities/quantity.py:40-41 | Always raises NotImplementedError with its message. |
| LegacyQuantities.ConvertUnits | modules/quantities/quantity.py:58-67 | A missing "units" table is a KeyError. Unknown source or target units fail with their messages. Otherwise it is the linear conversion over that table. |
| LegacyQuantities.ConvertUnitsRoundTrip | modules/quantities/quantity.py:58-67 | With nonzero factors, converting there and back returns the value. |

## Left out

- Loading conversion tables from JSON files (`conversion_managers.py:14-35`, `quantities/quantity.py:45-56`) is file I/O. The model takes the loaded tables as a parameter (`Catalog`, `Conversions`).
- The temperature manager `eval`s lambda strings from its table. The model takes the two functions per scale as values; the strings are not parsed.
- Float arithmetic is modelled with exact reals. Rounding, `inf` and `nan` are not captured, so `PI` and `SQRT_2` are the decimal literals of the source.
- Persistence (the DAO modules), `__str__`/`__repr__` of quantities, components and supplies, `to_dict` and `to_json_string` are formatting or I/O. Only the unit and dimension renderings are modelled.
- The unit catalogue (`VoltageUnits`, `PowerUnits`, ...) imported by the quantity classes is not in `modules/unit.py`. The default units (V, A, W, s, J, deg, ...) are written out with their SI exponents.
- Unit equality, which `unit.py` does not define, is modelled as equal symbol and equal exponents (`SameUnit`). Conversion tables are looked up by unit symbol.
- Units.IsCompatibleWith: `Unit.is_compatible_with` is called by the quantities but not defined in `modules/unit.py`. It is modelled as equality of the exponent maps, and the TypeError message for a non-unit argument is not pinned down.
- `Unit.is_dimensionless` reads attributes that do not exist (`self.unit.dimension`) and would always raise AttributeError; it is not modelled.
- `TemperatureQuantity` and `LinearRegulator` call their base constructors with missing arguments and cannot be built. Neither is modelled.
- `electrical_quantitites.py` imports names that `physical_quantities.py` does not define (`Current`, `Voltage`, ...). The model reads them as the electric current, voltage, frequency and angle quantities.
- `normalize_phase` updates the caller's angle object in place. The model returns the updated angle, so aliasing of that object is not captured. The same holds for every quantity, which is a value here.
- `compute_power_budget` calls `convert_to` with the strings 'V' and 'mA'. The model reads the values in those symbols through the table (`ValueInSymbol`). The stored totals are reals in mA and mW rather than quantity objects.
- Quantities.ValueInSymbol: the model accepts a unit symbol where `convert_to` expects a `Unit`. Under the reading used for `Units.IsCompatibleWith`, where a non-unit argument is a TypeError, every `compute_power_budget` as written would raise, and so would every `add_component`, `remove_component` and `modify_component_quantity`. The model does not capture that; it models the evident intent of reading the totals in V and mA.
- Quantities.Div: the quotient's unit is built with the corrected `Units.Divide`, so its name is joined with `/`. `BaseQuantity.__truediv__` goes through `Unit.__truediv__`, which as written joins the name with `*` (see Findings). The symbol and the dimensions are the same either way.
- A `Unit` built without dimensions stores a plain empty dict (`modules/unit.py:67`). Its `__str__` then fails on the attribute access, and `*` and `/` fail when they combine its dimensions. The model's `Unit` always carries a dimension map, so that case is not modelled.
- PowerSystem.Budget: the count weighting uses an integer count as Python would. Non-integer counts are not modelled.
- `@total_ordering`'s derived `<=` and `>=` are not modelled; `==`, `<` and `>` are.
- The component name setter's `isinstance(str)` check cannot fail in a typed model. The supply's property setters and simple getters (`nominal_voltage`, `efficiency`, `dcdc_type`, ...) are plain field access.
- The `Component` factory classmethods (`from_voltage_current`, ...) only call the constructor with two arguments; they are covered by `PowerSystem.Component.Create`.
- The `power_supply` getter of `modules/component.py:92-94` returns its own property and recurses forever; it is not modelled.
- `LithiumBattery`'s default subchemistry argument 'Other' is a caller default. The model's `None` is an explicit Python `None`, which the source maps to 'LiPo'.
- `modules/power_budget.py` repeats `Component` and the supply classes of `component.py` and `power_supply.py` with the same logic; one copy is modelled.
- The legacy `voltage.py`, `length.py` and `temperature.py` quantity subclasses are not part of this model.

## Findings

| source | as written | input that shows it | evidently intended | confidence | as-written member | corrected member |
|---|---|---|---|---|---|---|
| modules/unit.py:114 | `Unit.__truediv__` builds the new name as `name*other`, like `__mul__` | `meter / second` is named `meter*second` | the name is joined with `/`, as the symbol is | high, not executed | Units.DivideAsWritten, Units.DivideNameCollides | Units.Divide, Units.DivideNameDistinct |
| modules/electrical_quantitites.py:25-40 | the default `phase_angle = 0` is an int, and `normalize_phase` reads its `.unit` | `AC_Voltage(Voltage(230), Frequency(50))` raises AttributeError | an omitted phase is an angle of 0 | high, not executed | ElectricalQuantities.ACVoltageAsWritten, ElectricalQuantities.DefaultPhaseFails | ElectricalQuantities.ACVoltageWithDefault, ElectricalQuantities.DefaultPhaseIsZero |

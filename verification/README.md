# Unit converter: conversion engine and history log

A Dafny model of the core of a small unit-conversion page (`app.py`). The user
picks a category (Length, Weight, Temperature, Currency, Volume, Speed, Data
Storage), a non-negative amount and two units. The page converts the amount and
appends the conversion to the session's history. The sidebar shows the last
five conversions, newest first.

The model has three modules:

- `Conversion` (`conversion.dfy`) holds the pure arithmetic.
  - The five linear tables (length, weight, volume, speed, data storage) are
    `map<string, real>` constants, exactly as the file writes them. Length has
    five units and weight three.
  - All five linear converters share `LinearConvert`, which computes
    `value * (table[from] / table[to])`.
  - Their contract is conservation of the base amount
    (`Conserves`: `result * table[to] == value * table[from]`).
  - Currency uses the inverted ratio `rates[to] / rates[from]`, because the
    rates are units per US dollar.
  - Temperature is the piecewise rule with all its quirks. It is specified
    against an independent reference: `ToKelvin`/`FromKelvin` give the
    physical temperature, and `ReachedScale` says which scale the `if ... else`
    branches actually land in.
  - The category `if/elif` chain is a `Category` datatype with a `match`
    (`Convert`), plus the label comparison (`ParseCategory`, `ConvertLabel`).
- `History` (`history.dfy`) holds the session history.
  - `HistoryLog` is a class whose `entries: seq<Entry>` field is appended to
    in place.
  - `Recent` walks the last five entries from newest to oldest, as the sidebar
    loop does.
  - `Window` is the pure specification of that view.
- `App` (`app.dfy`) holds the Convert button handler, `Submit`. It converts,
  then appends the entry only when the conversion produced a number.

Numbers are exact `real`s, so round trips are proved as equalities.

A Python `KeyError` becomes `Err(UnknownUnit(name))`, naming the key that
Python looks up first:
- the linear converters evaluate `table[from_unit]` before `table[to_unit]`;
- the currency expression evaluates `currency_rates[to_unit]` first.

A category label that no branch matches would leave `result` unbound at
`app.py:106`, so no entry is recorded. This is modelled as
`Err(UnknownCategory(label))`.

The model follows `app.py` where other descriptions of the converter differ:
- Longer length and weight tables and an eight-currency rate table belong to a
  sibling version of the page. `app.py` has 5 length units, 3 weight units and
  4 currencies, and the model uses those.
- A same-scale temperature request is not treated as the identity, because
  the code does not do that: Celsius to Celsius adds 273.15.
  `SameScaleIsNotIdentity` states this behaviour.

## Model

| member | source | states |
|---|---|---|
| `Conversion.TablesArePositive` | app.py:39-66 | every factor of the five unit tables and every currency rate is strictly positive, and each base unit (Meters, Kilograms, USD, Liters, Km/h, Bytes) has factor 1 |
| `Conversion.LinearConvert` | app.py:38-40 | the shared linear conversion keeps the amount of base unit (`r * table[to] == value * table[from]`); a unit converted to itself is unchanged; a non-negative input gives a non-negative result |
| `Conversion.LookupConvert` | app.py:39-40 | the linear converter succeeds exactly when both units are table keys; otherwise it fails naming `from` if that is missing, else `to`; on success it conserves the base amount |
| `Conversion.ConservedDetermines` | app.py:40 | a result that conserves the base amount is the linear conversion, so it equals the input for equal units and is non-negative for a non-negative input |
| `Conversion.LinearRoundTrip` | app.py:38-67 | for any table and any units A, B: converting A to B and then B to A returns the input exactly |
| `Conversion.LinearCompose` | app.py:38-67 | converting A to B and then B to C equals converting A to C directly |
| `Conversion.ConvertLength` | app.py:38-40 | length conversion succeeds exactly for the five listed units and conserves the amount in meters |
| `Conversion.ConvertWeight` | app.py:42-44 | weight conversion succeeds exactly for the three listed units and conserves the amount in kilograms |
| `Conversion.ConvertVolume` | app.py:57-59 | volume conversion succeeds exactly for the four listed units and conserves the amount in liters |
| `Conversion.ConvertSpeed` | app.py:61-63 | speed conversion succeeds exactly for the three listed units and conserves the amount in km/h |
| `Conversion.ConvertData` | app.py:65-67 | data conversion succeeds exactly for Bytes, KB, MB and GB and conserves the number of bytes |
| `Conversion.DataStepsBy1024` | app.py:66-67 | one GB is 1024 MB, one MB is 1024 KB, one KB is 1024 bytes, for any amount |
| `Conversion.UnknownLengthUnit` | app.py:39-40 | an unknown length unit ("Lightyears"), as source or as target, is an error naming it, never a number |
| `Conversion.ConvertCurrency` | app.py:97 | currency conversion succeeds exactly when both codes are in the rate table; a missing target code is reported before a missing source code; the amount in US dollars is conserved (`r * rates[from] == value * rates[to]`); same code is the identity; non-negative stays non-negative |
| `Conversion.CurrencyRoundTrip` | app.py:97 | for any two listed currencies X, Y: X to Y and back to X returns the input exactly |
| `Conversion.HundredDollarsInEuros` | app.py:55 | 100 USD converts to exactly 92 EUR |
| `Conversion.ParseScale` | app.py:47-51 | a scale is recognised exactly when the name is "Celsius", "Fahrenheit" or "Kelvin", and then it is the scale of that name |
| `Conversion.ConvertTemperature` | app.py:46-53 | an unrecognised source name returns the value unchanged; for a known source scale the result is the same absolute temperature read on the scale the branch reaches (`ReachedScale`) |
| `Conversion.DistinctScalesReachTarget` | app.py:47-52 | when source and target are two different known scales, the branch taken reaches the requested target scale |
| `Conversion.TemperaturePreservesKelvin` | app.py:47-52 | between two different known scales the conversion preserves the absolute temperature |
| `Conversion.TemperatureRoundTrip` | app.py:47-52 | Celsius/Fahrenheit, Celsius/Kelvin and Fahrenheit/Kelvin conversions are mutual inverses |
| `Conversion.SameScaleIsNotIdentity` | app.py:48-52 | Celsius to Celsius yields value + 273.15 (not the identity); Fahrenheit to Fahrenheit yields kelvin; Kelvin to Kelvin yields Fahrenheit |
| `Conversion.TemperatureLandmarks` | app.py:47-52 | 0 °C is 32 °F, 32 °F is 0 °C, 100 °C is 373.15 K, 0 K is -273.15 °C |
| `Conversion.ParseCategory` | app.py:90-103 | the label chain matches a category exactly when the label is that category's menu label, and then picks that category |
| `Conversion.Convert` | app.py:90-103 | temperature always yields the temperature rule's number; every other category fails exactly when a unit is missing from its table, with an UnknownUnit error naming `from` or `to`; on success the base amount (US dollars for currency) is conserved |
| `Conversion.ConvertLabel` | app.py:90-103 | a label no branch matches is an UnknownCategory error; a category's label dispatches to that category's converter |
| `Conversion.ConvertRoundTrip` | app.py:90-103 | for every category but temperature, A to B and back to A returns the input exactly |
| `Conversion.ConvertSameUnit` | app.py:90-103 | for every category but temperature, converting a listed unit to itself returns the input |
| `Conversion.ConvertNonNegative` | app.py:74 | for every category but temperature, a non-negative input, as the number widget enforces, gives a non-negative result |
| `Conversion.MenusMatchTables` | app.py:76-84 | each category's unit menu lists exactly the keys of its table (for temperature, exactly the three scale names) |
| `Conversion.MenuChoiceConverts` | app.py:86-87 | two units chosen from a category's menus always convert without error |
| `History.ReverseAt` | app.py:112 | position k of the reversed sequence holds the element k places from the end |
| `History.Window` | app.py:112 | the displayed view has min(5, length of the log) entries, and its k-th entry is the k-th newest of the log |
| `History.WindowAfterAppend` | app.py:106-112 | after an append the new entry is shown first, followed by the previously shown entries, minus the oldest once five are shown |
| `History.SevenEntries` | app.py:112 | after seven entries the view is entries 7, 6, 5, 4, 3 |
| `History.HistoryLog.constructor` | app.py:70-71 | a new session's history is empty |
| `History.HistoryLog.Append` | app.py:106 | appending grows the log by one entry at its end and leaves every earlier entry unchanged |
| `History.HistoryLog.Recent` | app.py:112-113 | the sidebar loop emits min(5, number of entries) entries, newest first, equal to `Window(entries)` |
| `App.Submit` | app.py:89-106 | the handler's result is the dispatched conversion; on success exactly one entry (value, from unit, result, to unit) is appended; on failure the history is unchanged |

## Left out

- Page set-up, the dark-mode toggle, CSS, the title, the select boxes, the number input, the button and the sidebar headings (app.py:2-35, 74, 86-89, 111, 115). These are UI. The menus appear only as `UnitOptions`, to state that they offer table keys.
- Output: `st.success` (app.py:108) and `st.sidebar.write` (app.py:113). `HistoryLog.Recent` returns the items in the order they would be written.
- Floating point: numbers are exact reals. IEEE-754 rounding and the `:.2f` formatting of the result are not modelled.
- History entries: an entry is the record (value, from unit, result, to unit) that the formatted string is built from. The text formatting is not modelled.
- `st.session_state`: the framework-managed per-session store is modelled as an explicitly constructed `HistoryLog` object.

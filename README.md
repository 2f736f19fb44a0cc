# Weather monitoring engine: a Dafny model

This project models the weather-state engine of a small Java console
program (`src/WeatherApp.java`). The engine has four parts:

- `WeatherData`: the one shared reading. It holds temperature in Celsius,
  humidity and pressure, plus a condition state that is recomputed on every
  write. It is a lazily created singleton and a `java.util.Observable`.
- `WeatherObserver`: an alert threshold. It registers itself on
  construction and warns on each later update whose new temperature is
  strictly below its threshold.
- `convertTemperature`: a case-sensitive conversion between Celsius,
  Fahrenheit and Kelvin. Unknown names pass the value through unchanged.
- `TemperatureDecorator.display`: it picks the reading's scale by a
  case-insensitive name match, and falls back to Celsius with a notice.

Files, one module each:

- `units.dfy` (`Units`): the conversion and a through-Celsius reference
  definition.
- `conditions.dfy` (`Conditions`): the four-tier classification, the same
  decision as an ordered table, and the condition lines.
- `scale_choice.dfy` (`ScaleChoice`): `equalsIgnoreCase` and the
  decorator's scale selection.
- `alerts.dfy` (`Alerts`): which thresholds warn at a given temperature,
  as an order-free multiset.
- `weather.dfy` (`Weather`): the `WeatherData` and `WeatherObserver`
  classes, the static instance slot, and the decorator's temperature line.
- `menu.dfy` (`Menu`): how the menu turns an entered threshold into
  Celsius. This is the code as written and its correction; see Findings.
- `scenarios.dfy` (`Scenarios`): one session driven through the public
  methods.
- `wrappers.dfy` (`Wrappers`): `Option`.

Temperatures are `real`, so every conversion identity holds exactly.
`java.util.Observable` is JDK code. Its observer list, its `changed` flag and
its `addObserver` / `setChanged` / `notifyObservers` behaviour are modelled
as fields and methods of `WeatherData`. Instead of printing, the model
returns the values each printed line depends on: a warning's threshold, the
condition line, and the temperature line's value, unit and invalid-scale
notice. A notification round also returns the list of observers it reached.

Two behaviours of the source matter here:

- Unrecognised scale names at the converter pass the value through
  unchanged.
- The JDK notifies the most recently registered observer first, so the
  model's notification loop runs from the end of the list. Every notification
  property is stated as a multiset, so it holds for any order.

## Model

| member | source | states |
|---|---|---|
| `Units.Parse` | src/WeatherApp.java:314-329 | a name is recognised only if it is exactly "Celsius", "Fahrenheit" or "Kelvin" (case-sensitive), and then denotes that scale |
| `Units.CelsiusRoundTrip` | src/WeatherApp.java:316-330 | for each scale, converting into Celsius and back out, or out and back in, is the identity |
| `Units.Convert` | src/WeatherApp.java:310-334 | equal names give the identity; an unrecognised from or to name passes the value through; for two recognised names the six direct formulas (including the 459.67-based Fahrenheit/Kelvin ones) equal converting through Celsius |
| `Units.ConvertRoundTrip` | src/WeatherApp.java:311-333 | for any two names, converting a to b and then b to a returns the original value |
| `Units.ConvertCompose` | src/WeatherApp.java:314-331 | for recognised names, a to b then b to c equals a to c (so Celsius to Fahrenheit to Kelvin equals Celsius to Kelvin) |
| `Units.ConvertIsCaseSensitive` | src/WeatherApp.java:311-333 | "celsius" to "Celsius" and "Celsius" to "fahrenheit" pass the value through |
| `Conditions.Classify` | src/WeatherApp.java:158-166 | Sunny iff t > 25, Cloudy iff 15 < t <= 25, Rainy iff 0 < t <= 15, Snowy iff t <= 0; boundaries fall into the lower tier and exactly one tier applies |
| `Conditions.ClassifyMonotone` | src/WeatherApp.java:158-166 | a warmer temperature never gives a colder condition |
| `Conditions.ClassifyIsTableLookup` | src/WeatherApp.java:158-166 | the if-chain equals a top-down table of exclusive lower bounds (25 Sunny, 15 Cloudy, 0 Rainy, else Snowy) |
| `Conditions.Render` | src/WeatherApp.java:106-128 | the contract fixes the "Weather: " prefix of each condition state's line; the state's name that follows is given by the body (the literal text of each `display()`), and `RenderInjective` shows the four lines differ |
| `Conditions.RenderInjective` | src/WeatherApp.java:106-128 | the four condition states print four distinct lines |
| `ScaleChoice.EqualsIgnoreCase` | src/WeatherApp.java:82-88 | `String.equalsIgnoreCase`: equal length and the same characters after per-character case folding; equal strings match; the folding is exact for ASCII plus U+0130, U+0131, U+017F and U+212A, hence exact when comparing against the three ASCII scale names |
| `ScaleChoice.EqualsIgnoreCaseSymmetric` | src/WeatherApp.java:82-88 | `a.equalsIgnoreCase(b)` holds exactly when `b.equalsIgnoreCase(a)` does |
| `ScaleChoice.SelectScale` | src/WeatherApp.java:82-95 | a name equal ignoring case to a scale's name selects that scale and its label (°C, °F, K); any other name selects Celsius, label °C, flagged invalid |
| `ScaleChoice.SelectScaleIgnoresCase` | src/WeatherApp.java:82-90 | names equal ignoring case make the same selection |
| `ScaleChoice.SelectScaleOfName` | src/WeatherApp.java:82-90 | every case variant of a scale's name selects that scale as recognised |
| `ScaleChoice.LowerCaseNameSelects` | src/WeatherApp.java:85-87 | "fahrenheit" selects Fahrenheit, although the converter does not recognise it |
| `Alerts.Warned` | src/WeatherApp.java:46-53 | the warnings of one round are among the registered thresholds, each strictly above the temperature, and no more numerous than the registrations |
| `Alerts.WarnedCount` | src/WeatherApp.java:46-53 | each threshold above t warns exactly as many times as it is registered, and every other threshold never warns |
| `Alerts.WarnedIgnoresOrder` | src/WeatherApp.java:172-173 | the multiset of warnings does not depend on the order of the observer list |
| `Alerts.WarnedAntitone` | src/WeatherApp.java:51-53 | a colder reading warns at least for every threshold a warmer one does |
| `Alerts.WarnedAppend` | src/WeatherApp.java:39-43 | registering one more threshold adds only its own warning, if any |
| `Weather.WeatherObserver.constructor` | src/WeatherApp.java:39-43 | appends exactly this new observer to the list, even when its threshold equals an existing one; it emits no warning and leaves the readings, condition and changed flag as they were |
| `Weather.WeatherObserver.Update` | src/WeatherApp.java:46-55 | warns, with its threshold, if and only if the subject's current Celsius temperature is strictly below the threshold |
| `Weather.WeatherData.constructor` | src/WeatherApp.java:137-144 | a fresh instance has zeroed readings, no condition state and no observers |
| `Weather.WeatherData.SetMeasurements` | src/WeatherApp.java:153-169 | the readings become exactly (t, h, p) and the condition becomes Classify(t), whatever the previous state was; the observer list is unchanged; every observer is notified exactly once, and the warnings are exactly the thresholds above t |
| `Weather.WeatherData.MeasurementsChanged` | src/WeatherApp.java:171-174 | always runs a notification round that reaches every observer once, and leaves the readings, condition and list unchanged |
| `Weather.WeatherData.SetChanged` | src/WeatherApp.java:172 | sets the changed flag and nothing else |
| `Weather.WeatherData.NotifyObservers` | src/WeatherApp.java:173 | with the flag clear, nothing is notified; with it set, the flag is cleared and every observer is updated once |
| `Weather.WeatherData.Deliver` | src/WeatherApp.java:173 | the update loop reaches each observer as often as it occurs in the snapshot (once each, for the duplicate-free list `NotifyObservers` passes); its warnings are exactly the thresholds above the stored temperature |
| `Weather.WeatherData.AddObserver` | src/WeatherApp.java:42 | appends an observer not yet registered, ignores one already registered, and keeps the list free of duplicates |
| `Weather.WeatherData.TemperatureFahrenheit` | src/WeatherApp.java:180-182 | equals the converter's Celsius-to-Fahrenheit value of the stored temperature, and converts back to it |
| `Weather.WeatherData.TemperatureKelvin` | src/WeatherApp.java:184-186 | equals the converter's Celsius-to-Kelvin value, and the Fahrenheit-to-Kelvin conversion of the Fahrenheit reading |
| `Weather.WeatherData.DisplayWeatherCondition` | src/WeatherApp.java:196-198 | requires a condition state, since the source dereferences it; prints that state's line, which is the classification of the stored temperature |
| `Weather.WeatherDataStatics.constructor` | src/WeatherApp.java:132 | the static instance slot starts empty, which satisfies the slot's invariant |
| `Weather.WeatherDataStatics.GetInstance` | src/WeatherApp.java:146-151 | keeps the slot's invariant (a stored instance is a consistent reading) and returns a consistent reading on every call; the first call creates a fresh zeroed instance with no condition, no observers and the changed flag clear; every later call returns that same object |
| `Weather.DisplayTemperature` | src/WeatherApp.java:78-97 | prints the reading on the selected scale with its label; an unrecognised name prints the Celsius reading, labelled °C, with the invalid-scale notice |
| `Weather.DisplayAgreesWithConvert` | src/WeatherApp.java:82-95 | for every name, the displayed value equals the converter's Celsius-to-selected-scale result (for an unrecognised name, Celsius to Celsius, the stored value) |
| `Menu.AlertThresholdAsWritten` | src/WeatherApp.java:271 | the entered threshold is converted to Celsius only when the scale name is exactly a known name; otherwise it is taken as Celsius |
| `Menu.AlertThresholdMismatch` | src/WeatherApp.java:271 | with the scale chosen as "fahrenheit", an entered 50 becomes 50 °C rather than 10 °C, so a 20 °C reading (shown as 68) warns |
| `Menu.AlertThreshold` | src/WeatherApp.java:269-272 | the corrected threshold shows as the entered value on the display's scale; it agrees with the code as written on every exact name and on every unrecognised name |
| `Menu.AlertMatchesDisplay` | src/WeatherApp.java:271 | with the corrected threshold, the observer warns exactly when the displayed temperature is below the entered value |
| `Menu.SetAlert` | src/WeatherApp.java:269-272 | registers one fresh observer holding the corrected threshold and leaves the readings, condition and changed flag unchanged |
| `Scenarios.AlertSession` | src/WeatherApp.java:146-174 | in one session, a round run before any alert exists warns nothing; after a 10-degree alert is registered (registration itself has no warning output), a reading of 30 shows 86 °F and Sunny and warns nothing; a later reading of 5, written through a second getInstance reference, warns once, for 10 |

## Left out

- The menu loop, `Scanner` parsing and console text are console I/O (src/WeatherApp.java:227-307). Only the threshold conversion at line 271 and the alert registration at line 272 are modelled, in `Menu`.
- `WeatherAPI` and `WeatherSensor` draw their readings from `Math.random`. Any caller of `SetMeasurements` stands in for them.
- `setWeatherDataInDatabase` is JDBC I/O whose exceptions are swallowed. It changes no state of the engine.
- Thread safety of the lazy singleton and of `Observable` is left out. The model is sequential.
- IEEE-754 rounding, NaN and infinities are left out, because temperatures are `real`. In Java, NaN fails every comparison and is classified Snowy; a `real` has no such value.
- The getters for Celsius, humidity and pressure are plain field reads. The model reads the fields directly.
- The `o instanceof WeatherData` test in `update` always holds in the model, because the subject is typed `WeatherData`. `update`'s unused `arg` is dropped.
- The singleton is not enforced. `WeatherDataStatics` is an ordinary class and the `WeatherData` constructor is public, so a client could build two slots or two instances; the source makes the constructor private (src/WeatherApp.java:142-144), which Dafny cannot express.
- The wording of the printed lines is not modelled: the warning text at src/WeatherApp.java:52 and the temperature line at line 97, including the scale name the user typed, which line 97 echoes.
- `Observable` methods that the source never calls (`deleteObserver`, `countObservers`, ...) are not modelled.
- `ScaleChoice.FoldCase` covers only ASCII plus the four other characters that fold onto an ASCII letter. It does not model the whole Unicode case table. Every name it is compared with is ASCII, so the selection itself is unaffected.
- `Weather.WeatherData.SetMeasurements` states its warnings and notified observers as multisets, not as sequences in delivery order. The order belongs to the JDK's `Observable` and is not promised by its documentation.
- `Weather.WeatherData.NotifyObservers` states delivery as multisets, for the same reason.
- `Weather.WeatherData.Deliver` states delivery as multisets, for the same reason.
- `Weather.WeatherData.DisplayWeatherCondition` requires a condition state. Before the first measurement the source throws a `NullPointerException` here, and that path is not modelled.

## Findings

| source | as written | input that shows it | evidently intended | confidence | as-written member | corrected member |
|---|---|---|---|---|---|---|
| src/WeatherApp.java:271 | the alert threshold is converted with the case-sensitive `convertTemperature`, but the display (lines 82-95) accepts the scale name in any case | scale chosen as "fahrenheit", threshold 50 entered: the display shows Fahrenheit, but the observer holds 50 °C instead of 10 °C, so a 20 °C reading (shown as 68 °F) warns | the threshold is read in the scale the display uses, so an observer warns exactly when the displayed temperature is below the entered value | medium, not executed | `Menu.AlertThresholdMismatch` | `Menu.AlertThreshold` |

/**
 * A client of the weather engine following one session: the shared
 * instance is fetched twice, a reading arrives, an alert is registered,
 * and two more readings arrive (the last through the second reference).
 */
module Scenarios {
  import opened Conditions
  import opened Alerts
  import opened Weather

  /** A round whose warnings are those of `thresholds` at `t`, read back as a sequence. */
  lemma WarningsOf(warnings: seq<real>, thresholds: seq<real>, t: real)
    requires multiset(warnings) == multiset(Warned(thresholds, t))
    requires thresholds == [10.0]
    ensures warnings == if t < 10.0 then [10.0] else []
  {
    assert Warned(thresholds, t) == if t < 10.0 then [10.0] else [];
    assert |warnings| == |multiset(warnings)|;
    if t < 10.0 {
      assert warnings[0] in multiset(warnings);
    }
  }

  /**
   * A round before any alert exists warns nothing. A 10-degree alert is
   * then registered while the reading is 5; registering has no warning
   * output (the `WeatherObserver` constructor returns none and leaves the
   * reading as it was), so it can only fire on a later update. A 30-degree
   * reading (86 Fahrenheit, Sunny) warns nothing; a later 5-degree reading,
   * written through the second reference, warns once, for 10.
   */
  method AlertSession() returns (noObservers: seq<real>, warm: seq<real>, cold: seq<real>,
                                 fahrenheit: real, weather: string)
    ensures noObservers == [] && warm == [] && cold == [10.0]
    ensures fahrenheit == 86.0 && weather == "Weather: Sunny"
  {
    var statics := new WeatherDataStatics();
    var w := statics.GetInstance();
    var again := statics.GetInstance();
    assert again == w && w.observers == [];
    var notified;
    notified, noObservers := w.SetMeasurements(5.0, 80.0, 1013.0);
    assert |noObservers| == |multiset(noObservers)| == 0;

    var alert := new WeatherObserver(w, 10.0);
    assert Thresholds(w.observers) == [10.0];
    notified, warm := w.SetMeasurements(30.0, 60.0, 1015.0);
    WarningsOf(warm, Thresholds(w.observers), 30.0);
    fahrenheit := w.TemperatureFahrenheit();
    weather := w.DisplayWeatherCondition();

    notified, cold := again.SetMeasurements(5.0, 80.0, 1013.0);
    WarningsOf(cold, Thresholds(w.observers), 5.0);
  }
}

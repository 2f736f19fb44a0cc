/**
 * The one piece of the interactive menu with logic of its own: option 3
 * reads an alert threshold in the currently chosen display scale and
 * converts it to Celsius before building the observer.
 *
 * As written, that conversion uses the case-sensitive converter while the
 * display matches the scale name ignoring case, so a scale chosen as
 * "fahrenheit" is displayed in Fahrenheit but its thresholds are taken as
 * Celsius. `AlertThresholdAsWritten` models the code as it is;
 * `AlertThreshold` reads the threshold in the scale the display uses, and
 * `SetAlert` builds the observer with it.
 */
module Menu {
  import opened Units
  import opened ScaleChoice
  import opened Weather

  /** The threshold conversion as the menu performs it: exact-name conversion to Celsius. */
  function AlertThresholdAsWritten(entered: real, displayScale: string): (c: real)
    ensures Parse(displayScale).Some? ==> c == ToCelsius(Parse(displayScale).value, entered)
    ensures Parse(displayScale).None? ==> c == entered
  {
    Convert(entered, displayScale, "Celsius")
  }

  /**
   * The discrepancy: with the scale chosen as "fahrenheit", a reading of
   * 20 degrees Celsius is displayed as 68 (above the entered 50), yet the
   * observer built from the entered 50 warns, because it holds 50 degrees
   * Celsius instead of 10.
   */
  lemma AlertThresholdMismatch()
    ensures SelectScale("fahrenheit").scale == Fahrenheit
    ensures FromCelsius(SelectScale("fahrenheit").scale, 20.0) == 68.0
    ensures AlertThresholdAsWritten(50.0, "fahrenheit") == 50.0
    ensures ToCelsius(Fahrenheit, 50.0) == 10.0
    ensures 20.0 < AlertThresholdAsWritten(50.0, "fahrenheit")
  {
  }

  /**
   * The threshold read in the scale the display uses. It agrees with the
   * code as written on every exact scale name and on every name that
   * matches no scale (both then treat the value as Celsius).
   */
  function AlertThreshold(entered: real, displayScale: string): (c: real)
    ensures FromCelsius(SelectScale(displayScale).scale, c) == entered
    ensures Parse(displayScale).Some? ==> c == AlertThresholdAsWritten(entered, displayScale)
    ensures !SelectScale(displayScale).recognised ==> c == AlertThresholdAsWritten(entered, displayScale)
  {
    ToCelsius(SelectScale(displayScale).scale, entered)
  }

  /**
   * With the corrected threshold an observer warns exactly when the
   * temperature the display shows is below the value the user entered.
   */
  lemma AlertMatchesDisplay(w: WeatherData, entered: real, displayScale: string)
    ensures w.temperatureCelsius < AlertThreshold(entered, displayScale)
            <==> DisplayTemperature(w, displayScale).value < entered
  {
  }

  /** Option 3 of the menu: registers an observer for the entered threshold. */
  method SetAlert(w: WeatherData, entered: real, displayScale: string) returns (o: WeatherObserver)
    requires w.Valid()
    modifies w
    ensures fresh(o) && o.threshold == AlertThreshold(entered, displayScale)
    ensures w.Valid() && w.observers == old(w.observers) + [o]
    ensures w.temperatureCelsius == old(w.temperatureCelsius) && w.condition == old(w.condition)
    ensures w.humidity == old(w.humidity) && w.pressure == old(w.pressure) && w.changed == old(w.changed)
  {
    o := new WeatherObserver(w, AlertThreshold(entered, displayScale));
  }
}

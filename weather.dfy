/**
 * The shared weather reading (`WeatherData`, an observable singleton), the
 * threshold observers registered on it (`WeatherObserver`) and the
 * temperature line printed by `TemperatureDecorator.display`.
 *
 * `java.util.Observable` is modelled by the fields it keeps for
 * `WeatherData`: the observer list and the `changed` flag. Instead of
 * printing, each update returns the value its warning line depends on (the
 * threshold), and a notification round also returns the observers reached.
 */
module Weather {
  import opened Wrappers
  import opened Units
  import opened Conditions
  import opened ScaleChoice
  import opened Alerts

  /** The thresholds of a list of observers, in list order. */
  function Thresholds(observers: seq<WeatherObserver>): (r: seq<real>)
    ensures |r| == |observers|
    ensures forall i :: 0 <= i < |observers| ==> r[i] == observers[i].threshold
  {
    if observers == [] then [] else [observers[0].threshold] + Thresholds(observers[1..])
  }

  /** Notifying the first observer of a list, then the rest, warns as the whole list does. */
  lemma WarnedStep(observers: seq<WeatherObserver>, t: real)
    requires observers != []
    ensures Warned(Thresholds(observers), t)
            == (if t < observers[0].threshold then [observers[0].threshold] else [])
               + Warned(Thresholds(observers[1..]), t)
  {
    assert Thresholds(observers)[1..] == Thresholds(observers[1..]);
  }

  /** A threshold watcher; it registers itself when created and is never removed. */
  class WeatherObserver {
    const weatherData: WeatherData
    const threshold: real

    /** Registers on `weatherData`; no check against the current reading happens here. */
    constructor (weatherData: WeatherData, temperatureThreshold: real)
      requires weatherData.Valid()
      modifies weatherData
      ensures this.weatherData == weatherData && threshold == temperatureThreshold
      ensures weatherData.Valid()
      ensures weatherData.observers == old(weatherData.observers) + [this]
      ensures Thresholds(weatherData.observers) == Thresholds(old(weatherData.observers)) + [temperatureThreshold]
      ensures weatherData.temperatureCelsius == old(weatherData.temperatureCelsius)
      ensures weatherData.humidity == old(weatherData.humidity)
      ensures weatherData.pressure == old(weatherData.pressure)
      ensures weatherData.condition == old(weatherData.condition)
      ensures weatherData.changed == old(weatherData.changed)
    {
      this.weatherData := weatherData;
      threshold := temperatureThreshold;
      new;
      weatherData.AddObserver(this);
      assert Thresholds(weatherData.observers) == Thresholds(old(weatherData.observers)) + [temperatureThreshold];
    }

    /** Called on each notification: warns exactly when the subject's new temperature is below the threshold. */
    method Update(subject: WeatherData) returns (warning: Option<real>)
      ensures warning.Some? <==> subject.temperatureCelsius < threshold
      ensures warning.Some? ==> warning.value == threshold
    {
      var temperature := subject.temperatureCelsius;
      if temperature < threshold {
        warning := Some(threshold);
      } else {
        warning := None;
      }
    }
  }

  class WeatherData {
    var temperatureCelsius: real
    var humidity: real
    var pressure: real
    /** The current condition state; absent until the first measurement. */
    var condition: Option<Condition>
    /** `Observable`'s observer list, in registration order. */
    var observers: seq<WeatherObserver>
    /** `Observable`'s changed flag. */
    var changed: bool

    /**
     * The condition is never stale: it is the classification of the stored
     * temperature, and before the first measurement every field is zero.
     * No observer is registered twice.
     */
    ghost predicate Valid()
      reads this
    {
      && (condition.None? ==> temperatureCelsius == 0.0 && humidity == 0.0 && pressure == 0.0)
      && (condition.Some? ==> condition.value == Classify(temperatureCelsius))
      && (forall i, j :: 0 <= i < j < |observers| ==> observers[i] != observers[j])
    }

    /** A fresh instance: zeroed readings, no condition, no observers. */
    constructor ()
      ensures Valid()
      ensures temperatureCelsius == 0.0 && humidity == 0.0 && pressure == 0.0
      ensures condition == None && observers == [] && !changed
    {
      temperatureCelsius, humidity, pressure := 0.0, 0.0, 0.0;
      condition := None;
      observers := [];
      changed := false;
    }

    /**
     * Overwrites the three readings, reclassifies, then notifies: every
     * registered observer is reached exactly once and sees the new
     * temperature, so the warnings are exactly the thresholds above it.
     */
    method SetMeasurements(t: real, h: real, p: real) returns (notified: seq<WeatherObserver>, warnings: seq<real>)
      requires Valid()
      modifies this
      ensures Valid()
      ensures temperatureCelsius == t && humidity == h && pressure == p
      ensures condition == Some(Classify(t))
      ensures observers == old(observers) && !changed
      ensures multiset(notified) == multiset(observers)
      ensures multiset(warnings) == multiset(Warned(Thresholds(observers), t))
    {
      temperatureCelsius := t;
      humidity := h;
      pressure := p;
      if t > 25.0 {
        condition := Some(Sunny);
      } else if t > 15.0 {
        condition := Some(Cloudy);
      } else if t > 0.0 {
        condition := Some(Rainy);
      } else {
        condition := Some(Snowy);
      }
      assert condition == Some(Classify(t));
      assert Valid();
      notified, warnings := MeasurementsChanged();
      assert Valid();
    }

    /** Marks the reading changed and notifies, so a notification round always happens. */
    method MeasurementsChanged() returns (notified: seq<WeatherObserver>, warnings: seq<real>)
      modifies this
      ensures temperatureCelsius == old(temperatureCelsius) && humidity == old(humidity)
      ensures pressure == old(pressure) && condition == old(condition)
      ensures observers == old(observers) && !changed
      ensures multiset(notified) == multiset(observers)
      ensures multiset(warnings) == multiset(Warned(Thresholds(observers), temperatureCelsius))
    {
      SetChanged();
      notified, warnings := NotifyObservers();
    }

    /** `Observable.setChanged`. */
    method SetChanged()
      modifies this
      ensures changed
      ensures temperatureCelsius == old(temperatureCelsius) && humidity == old(humidity)
      ensures pressure == old(pressure) && condition == old(condition) && observers == old(observers)
    {
      changed := true;
    }

    /**
     * `Observable.notifyObservers`: does nothing unless the reading is
     * marked changed; otherwise clears the mark and updates every observer
     * registered at that moment.
     */
    method NotifyObservers() returns (notified: seq<WeatherObserver>, warnings: seq<real>)
      modifies this
      ensures temperatureCelsius == old(temperatureCelsius) && humidity == old(humidity)
      ensures pressure == old(pressure) && condition == old(condition)
      ensures observers == old(observers) && !changed
      ensures !old(changed) ==> notified == [] && warnings == []
      ensures old(changed) ==> multiset(notified) == multiset(observers)
      ensures old(changed) ==> multiset(warnings) == multiset(Warned(Thresholds(observers), temperatureCelsius))
    {
      if !changed {
        return [], [];
      }
      var snapshot := observers;
      changed := false;
      notified, warnings := Deliver(snapshot);
    }

    /**
     * The update loop over a snapshot of the observer list (last registered
     * first, as the JDK's `Observable` does it; nothing below depends on
     * that order).
     */
    method Deliver(snapshot: seq<WeatherObserver>) returns (notified: seq<WeatherObserver>, warnings: seq<real>)
      ensures multiset(notified) == multiset(snapshot)
      ensures multiset(warnings) == multiset(Warned(Thresholds(snapshot), temperatureCelsius))
    {
      notified, warnings := [], [];
      var i := |snapshot|;
      while i > 0
        invariant 0 <= i <= |snapshot|
        invariant multiset(notified) == multiset(snapshot[i..])
        invariant multiset(warnings) == multiset(Warned(Thresholds(snapshot[i..]), temperatureCelsius))
      {
        i := i - 1;
        var warning := snapshot[i].Update(this);
        WarnedStep(snapshot[i..], temperatureCelsius);
        assert snapshot[i..][1..] == snapshot[i + 1..];
        assert snapshot[i..] == [snapshot[i]] + snapshot[i + 1..];
        notified := notified + [snapshot[i]];
        if warning.Some? {
          warnings := warnings + [warning.value];
        }
      }
      assert snapshot[0..] == snapshot;
    }

    /** `Observable.addObserver`: appends an observer not already registered. */
    method AddObserver(o: WeatherObserver)
      requires Valid()
      modifies this
      ensures Valid()
      ensures observers == if o in old(observers) then old(observers) else old(observers) + [o]
      ensures temperatureCelsius == old(temperatureCelsius) && humidity == old(humidity)
      ensures pressure == old(pressure) && condition == old(condition) && changed == old(changed)
    {
      if o !in observers {
        observers := observers + [o];
      }
    }

    /** The Fahrenheit reading, derived from the stored Celsius value. */
    function TemperatureFahrenheit(): (r: real)
      reads this
      ensures r == Convert(temperatureCelsius, "Celsius", "Fahrenheit")
      ensures Convert(r, "Fahrenheit", "Celsius") == temperatureCelsius
    {
      temperatureCelsius * 9.0 / 5.0 + 32.0
    }

    /** The Kelvin reading, derived from the stored Celsius value. */
    function TemperatureKelvin(): (r: real)
      reads this
      ensures r == Convert(temperatureCelsius, "Celsius", "Kelvin")
      ensures r == Convert(TemperatureFahrenheit(), "Fahrenheit", "Kelvin")
    {
      temperatureCelsius + 273.15
    }

    /** The condition line; the source dereferences the state, so one must exist. */
    method DisplayWeatherCondition() returns (text: string)
      requires condition.Some?
      ensures text == Render(condition.value)
      ensures Valid() ==> text == Render(Classify(temperatureCelsius))
    {
      text := Render(condition.value);
    }
  }

  /** The static `instance` slot of `WeatherData`. */
  class WeatherDataStatics {
    var instance: WeatherData?

    /** Once created, the shared instance is a consistent reading. */
    ghost predicate Valid()
      reads this, instance
    {
      instance != null ==> instance.Valid()
    }

    constructor ()
      ensures Valid() && instance == null
    {
      instance := null;
    }

    /** Creates the instance on the first call and returns that same object on every call. */
    method GetInstance() returns (w: WeatherData)
      requires Valid()
      modifies this
      ensures Valid() && w.Valid()
      ensures instance == w
      ensures old(instance) != null ==> w == old(instance)
      ensures old(instance) == null ==> fresh(w) && w.condition == None && w.observers == [] && !w.changed
      ensures old(instance) == null ==> w.temperatureCelsius == 0.0 && w.humidity == 0.0 && w.pressure == 0.0
    {
      if instance == null {
        instance := new WeatherData();
      }
      w := instance;
    }
  }

  /** The temperature line `TemperatureDecorator.display` prints. */
  datatype TemperatureLine = TemperatureLine(value: real, unit: string, invalidNotice: bool)

  /**
   * The reading on the chosen scale with its unit; an unrecognised scale
   * name reads Celsius, labelled as such, with an invalid-scale notice.
   */
  function DisplayTemperature(w: WeatherData, scaleName: string): (line: TemperatureLine)
    reads w
    ensures line.unit == Unit(SelectScale(scaleName).scale)
    ensures line.invalidNotice <==> forall s :: !EqualsIgnoreCase(scaleName, Name(s))
    ensures line.value == FromCelsius(SelectScale(scaleName).scale, w.temperatureCelsius)
    ensures line.invalidNotice ==> line.value == w.temperatureCelsius && line.unit == "\U{B0}C"
  {
    var sel := SelectScale(scaleName);
    var value := match sel.scale
      case Celsius => w.temperatureCelsius
      case Fahrenheit => w.TemperatureFahrenheit()
      case Kelvin => w.TemperatureKelvin();
    TemperatureLine(value, sel.unit, !sel.recognised)
  }

  /** For every scale name the displayed value is the converter's Celsius-to-selected-scale result. */
  lemma DisplayAgreesWithConvert(w: WeatherData, scaleName: string)
    ensures DisplayTemperature(w, scaleName).value
            == Convert(w.temperatureCelsius, "Celsius", Name(SelectScale(scaleName).scale))
  {
  }
}

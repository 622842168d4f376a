/**
 * The sidebar dashboard with four presets.  Its readings are local to one
 * script run (present only when the fetch button was the widget that caused
 * the run) and it refuses a run unless both readings exist or both overrides
 * are set.
 */
module App2 {
  import opened Wrappers
  import opened Estimation
  import App

  /** The four built-in presets, in registry order. */
  const TransportModes: seq<Mode> := [
    Mode("Helium Balloon", ModeParams(10.0, 0.02, 0.2, 1.1)),
    Mode("Drone", ModeParams(20.0, 0.05, 0.15, 1.3)),
    Mode("Hot Air Balloon", ModeParams(50.0, 0.01, 0.1, 1.5)),
    Mode("Catapult", ModeParams(5.0, 0.005, 0.3, 1.05))
  ]

  /** The readings a script run holds: the fetch outcomes if it fetched, nothing otherwise. */
  function Readings(fetchClicked: bool, fetchedElev: Option<real>, fetchedWeather: Option<Weather>): (r: (Option<real>, Option<Weather>))
    ensures !fetchClicked ==> r == (None, None)
    ensures fetchClicked ==> r == (fetchedElev, fetchedWeather)
  {
    if fetchClicked then (fetchedElev, fetchedWeather) else (None, None)
  }

  /**
   * Decides the run's context: refused when either reading is missing unless
   * both overrides are set; otherwise each field takes its reading unless it
   * is missing or overridden.
   */
  function Resolve(elev: Option<real>, weather: Option<Weather>, ov: App.Overrides): (r: Result<Context, Refusal>)
    ensures r.Failure? <==> (elev.None? || weather.None?) && !(ov.overrideBaseElev && ov.overrideWeather)
    ensures r.Failure? ==> r.error == MissingDataOrOverrides
    ensures r.Success? ==> r.value.baseElev == if elev.Some? && !ov.overrideBaseElev then elev.value else ov.manualBaseElev
    ensures r.Success? ==>
              r.value.factor == (if weather.Some? && !ov.overrideWeather then WeatherFactor(WindSpeed(weather.value)) else ov.manualWeatherFactor)
  {
    if (elev.None? || weather.None?) && !(ov.overrideBaseElev && ov.overrideWeather) then
      Failure(MissingDataOrOverrides)
    else
      var finalBaseElev := if elev.Some? && !ov.overrideBaseElev then elev.value else ov.manualBaseElev;
      if weather.Some? && !ov.overrideWeather then
        Success(Context(finalBaseElev, WeatherFactor(WindSpeed(weather.value))))
      else
        Success(Context(finalBaseElev, ov.manualWeatherFactor))
  }

  /**
   * The coupled rule is stricter than resolving each field on its own: every
   * run it accepts, the per-field rule accepts with the same context.
   */
  lemma StricterThanPerField(elev: Option<real>, weather: Option<Weather>, ov: App.Overrides)
    requires Resolve(elev, weather, ov).Success?
    ensures App.Resolve(elev, weather, ov).Success?
    ensures App.Resolve(elev, weather, ov).value.ctx == Resolve(elev, weather, ov).value
  {
  }

  /**
   * ... and strictly so: a stored elevation with a missing weather reading
   * and only the weather override is refused here but accepted per field.
   */
  lemma WeatherOverrideAloneRefused(e: real, ov: App.Overrides)
    requires ov.overrideWeather && !ov.overrideBaseElev
    ensures Resolve(Some(e), None, ov) == Failure(MissingDataOrOverrides)
    ensures App.Resolve(Some(e), None, ov).Success?
  {
  }

  /** In a script run that did not fetch, only the two overrides together let a run proceed. */
  lemma NoFetchNeedsBothOverrides(fetchedElev: Option<real>, fetchedWeather: Option<Weather>, ov: App.Overrides)
    ensures var (elev, weather) := Readings(false, fetchedElev, fetchedWeather);
            Resolve(elev, weather, ov).Success? <==> ov.overrideBaseElev && ov.overrideWeather
    ensures var (elev, weather) := Readings(false, fetchedElev, fetchedWeather);
            Resolve(elev, weather, ov).Success? ==>
              Resolve(elev, weather, ov).value == Context(ov.manualBaseElev, ov.manualWeatherFactor)
  {
  }

  /**
   * One script run in which "Run Simulation" was pressed: the readings are
   * those of this script run, then resolve and build one row per preset.
   */
  method Run(fetchClicked: bool, fetchedElev: Option<real>, fetchedWeather: Option<Weather>, ov: App.Overrides,
             massG: real, altitudeKm: real, edits: seq<ModeParams>)
    returns (outcome: Result<seq<Row>, Refusal>)
    requires |edits| == |TransportModes|
    ensures var (elev, weather) := Readings(fetchClicked, fetchedElev, fetchedWeather);
            Resolve(elev, weather, ov).Failure? ==> outcome == Failure(MissingDataOrOverrides)
    ensures var (elev, weather) := Readings(fetchClicked, fetchedElev, fetchedWeather);
            Resolve(elev, weather, ov).Success? ==>
              var ctx := Resolve(elev, weather, ov).value;
              outcome.Success?
              && |outcome.value| == 4
              && (forall i :: 0 <= i < |TransportModes| ==>
                    outcome.value[i] == BuiltinRow(Mode(TransportModes[i].name, edits[i]), ctx, massG, altitudeKm))
  {
    var baseElev: Option<real>, weatherData: Option<Weather>;
    if fetchClicked {
      baseElev, weatherData := fetchedElev, fetchedWeather;
    } else {
      baseElev, weatherData := None, None;
    }

    var transportParams := CollectModeParams(TransportModes, edits);

    if (baseElev.None? || weatherData.None?) && !(ov.overrideBaseElev && ov.overrideWeather) {
      return Failure(MissingDataOrOverrides);
    }
    var finalBaseElev := if baseElev.Some? && !ov.overrideBaseElev then baseElev.value else ov.manualBaseElev;
    var computedWeatherFactor;
    if weatherData.Some? && !ov.overrideWeather {
      var windSpeed := WindSpeed(weatherData.value);
      computedWeatherFactor := WeatherFactor(windSpeed);
    } else {
      computedWeatherFactor := ov.manualWeatherFactor;
    }

    var results := EstimateBuiltinModes(transportParams, Context(finalBaseElev, computedWeatherFactor), massG, altitudeKm);
    return Success(results);
  }
}

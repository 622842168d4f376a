/**
 * The step-by-step dashboard with four presets and no custom method.  Like
 * the five-preset dashboard it keeps fetched readings in the session store
 * and resolves each field separately, but it keeps no wind speed.
 */
module App3 {
  import opened Wrappers
  import opened Estimation
  import App

  /** The four built-in presets, in registry order. */
  const TransportModes: seq<Mode> := [
    Mode("Helium Balloon", ModeParams(10.0, 0.02, 0.2, 1.1)),
    Mode("Drone", ModeParams(20.0, 0.05, 0.15, 1.3)),
    Mode("Hot Air Balloon", ModeParams(50.0, 0.01, 0.1, 1.5)),
    Mode("Catapult", ModeParams(5.0, 0.005, 0.3, 1.05))
  ]

  /**
   * Decides the run's context from the stored readings and the overrides,
   * elevation first, or refuses the run.
   */
  function Resolve(storedElev: Option<real>, storedWeather: Option<Weather>, ov: App.Overrides): (r: Result<Context, Refusal>)
    ensures r == Failure(NoBaseElevation) <==> storedElev.None? && !ov.overrideBaseElev
    ensures r == Failure(NoWeather) <==>
              (storedElev.Some? || ov.overrideBaseElev) && storedWeather.None? && !ov.overrideWeather
    ensures r.Success? <==> (storedElev.Some? || ov.overrideBaseElev) && (storedWeather.Some? || ov.overrideWeather)
    ensures r.Success? ==> r.value.baseElev == if ov.overrideBaseElev then ov.manualBaseElev else storedElev.value
    ensures r.Success? ==>
              r.value.factor == (if ov.overrideWeather then ov.manualWeatherFactor else WeatherFactor(WindSpeed(storedWeather.value)))
  {
    if storedElev.None? && !ov.overrideBaseElev then Failure(NoBaseElevation)
    else
      var finalBaseElev := if storedElev.Some? && !ov.overrideBaseElev then storedElev.value else ov.manualBaseElev;
      if storedWeather.None? && !ov.overrideWeather then Failure(NoWeather)
      else if storedWeather.Some? && !ov.overrideWeather then
        Success(Context(finalBaseElev, WeatherFactor(WindSpeed(storedWeather.value))))
      else
        Success(Context(finalBaseElev, ov.manualWeatherFactor))
  }

  /**
   * This dashboard refuses and accepts exactly the runs the five-preset one
   * does, with the same context; only the retained wind speed is dropped.
   */
  lemma SameRuleAsApp(storedElev: Option<real>, storedWeather: Option<Weather>, ov: App.Overrides)
    ensures Resolve(storedElev, storedWeather, ov).Failure? <==> App.Resolve(storedElev, storedWeather, ov).Failure?
    ensures Resolve(storedElev, storedWeather, ov).Failure? ==>
              Resolve(storedElev, storedWeather, ov).error == App.Resolve(storedElev, storedWeather, ov).error
    ensures Resolve(storedElev, storedWeather, ov).Success? ==>
              Resolve(storedElev, storedWeather, ov).value == App.Resolve(storedElev, storedWeather, ov).value.ctx
  {
  }

  /** One press of "Run Simulation": collect parameters, resolve, one row per preset. */
  method Run(storedElev: Option<real>, storedWeather: Option<Weather>, ov: App.Overrides,
             massG: real, altitudeKm: real, edits: seq<ModeParams>)
    returns (outcome: Result<seq<Row>, Refusal>)
    requires |edits| == |TransportModes|
    ensures Resolve(storedElev, storedWeather, ov).Failure? ==>
              outcome == Failure(Resolve(storedElev, storedWeather, ov).error)
    ensures Resolve(storedElev, storedWeather, ov).Success? ==>
              var ctx := Resolve(storedElev, storedWeather, ov).value;
              outcome.Success?
              && |outcome.value| == 4
              && (forall i :: 0 <= i < |TransportModes| ==>
                    outcome.value[i] == BuiltinRow(Mode(TransportModes[i].name, edits[i]), ctx, massG, altitudeKm))
  {
    var transportParams := CollectModeParams(TransportModes, edits);

    if storedElev.None? && !ov.overrideBaseElev {
      return Failure(NoBaseElevation);
    }
    var finalBaseElev := if storedElev.Some? && !ov.overrideBaseElev then storedElev.value else ov.manualBaseElev;

    if storedWeather.None? && !ov.overrideWeather {
      return Failure(NoWeather);
    }
    var computedWeatherFactor;
    if storedWeather.Some? && !ov.overrideWeather {
      var windSpeed := WindSpeed(storedWeather.value);
      computedWeatherFactor := WeatherFactor(windSpeed);
    } else {
      computedWeatherFactor := ov.manualWeatherFactor;
    }

    var results := EstimateBuiltinModes(transportParams, Context(finalBaseElev, computedWeatherFactor), massG, altitudeKm);
    return Success(results);
  }
}

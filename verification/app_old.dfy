/**
 * The earliest dashboard: a budget scenario instead of a cost model.  Each
 * run reads both readings through the fetch cache and needs both of them,
 * even when the manual weather factor is selected.
 */
module AppOld {
  import opened Wrappers
  import opened Estimation

  /** A transport option of this dashboard: a name and an efficiency multiplier. */
  datatype OldMode = OldMode(name: string, efficiency: real)

  /** One line of this dashboard's result table (value unrounded). */
  datatype OldRow = OldRow(mode: string, efficiency: real, elevation: real)

  /** The four transport options, in list order. */
  const TransportModes: seq<OldMode> := [
    OldMode("Helium Balloon", 1.1),
    OldMode("Drone", 1.3),
    OldMode("Hot Air Balloon", 1.5),
    OldMode("Catapult", 1.05)
  ]

  /** The budget (USD) of the chosen scenario: 50 for "$50", 500 for anything else. */
  function Budget(budgetOption: string): (b: real)
    ensures b == 50.0 <==> budgetOption == "$50"
    ensures b == 500.0 <==> budgetOption != "$50"
  {
    if budgetOption == "$50" then 50.0 else 500.0
  }

  /** Final elevation under a budget; the scaling by 50 cancels out. */
  function SimulateElevation(baseElev: real, budget: real, efficiency: real, factor: real): (r: real)
    ensures r == baseElev + budget * efficiency * factor
  {
    var additional := (budget / 50.0) * efficiency * factor * 50.0;
    baseElev + additional
  }

  /**
   * Decides the run's context from the two fetched readings: refused when
   * either is missing; otherwise the factor from the wind, replaced by the
   * manual one when it is selected.
   */
  function Resolve(elev: Option<real>, weather: Option<Weather>, useManualWeather: bool, manualWeatherFactor: real)
    : (r: Result<Context, Refusal>)
    ensures r.Failure? <==> elev.None? || weather.None?
    ensures r.Failure? ==> r.error == MissingExternalData
    ensures r.Success? ==> r.value.baseElev == elev.value
    ensures r.Success? ==>
              r.value.factor == (if useManualWeather then manualWeatherFactor else WeatherFactor(WindSpeed(weather.value)))
  {
    if elev.None? || weather.None? then Failure(MissingExternalData)
    else if useManualWeather then Success(Context(elev.value, manualWeatherFactor))
    else Success(Context(elev.value, WeatherFactor(WindSpeed(weather.value))))
  }

  /** Selecting the manual factor does not make a missing reading acceptable. */
  lemma ManualFactorStillNeedsReadings(elev: Option<real>, weather: Option<Weather>, manualWeatherFactor: real)
    requires elev.None? || weather.None?
    ensures Resolve(elev, weather, true, manualWeatherFactor) == Failure(MissingExternalData)
  {
  }

  /**
   * One press of "Run Simulation": `fetchedElev` and `fetchedWeather` are
   * what this press's two calls through the fetch cache return (possibly a
   * cached failure); one row per transport option.
   */
  method Run(budgetOption: string, fetchedElev: Option<real>, fetchedWeather: Option<Weather>,
             useManualWeather: bool, manualWeatherFactor: real)
    returns (outcome: Result<seq<OldRow>, Refusal>)
    ensures Resolve(fetchedElev, fetchedWeather, useManualWeather, manualWeatherFactor).Failure? ==>
              outcome == Failure(MissingExternalData)
    ensures Resolve(fetchedElev, fetchedWeather, useManualWeather, manualWeatherFactor).Success? ==>
              var ctx := Resolve(fetchedElev, fetchedWeather, useManualWeather, manualWeatherFactor).value;
              outcome.Success?
              && |outcome.value| == |TransportModes|
              && (forall i :: 0 <= i < |TransportModes| ==>
                    outcome.value[i] == OldRow(TransportModes[i].name, TransportModes[i].efficiency,
                                               ctx.baseElev + Budget(budgetOption) * TransportModes[i].efficiency * ctx.factor))
  {
    var budget := if budgetOption == "$50" then 50.0 else 500.0;

    if fetchedElev.None? || fetchedWeather.None? {
      return Failure(MissingExternalData);
    }
    var baseElev := fetchedElev.value;
    var windSpeed := WindSpeed(fetchedWeather.value);
    var weatherFactor := WeatherFactor(windSpeed);
    if useManualWeather {
      weatherFactor := manualWeatherFactor;
    }

    var results: seq<OldRow> := [];
    var i := 0;
    while i < |TransportModes|
      invariant 0 <= i <= |TransportModes|
      invariant |results| == i
      invariant forall k :: 0 <= k < i ==>
                  results[k] == OldRow(TransportModes[k].name, TransportModes[k].efficiency,
                                       SimulateElevation(baseElev, budget, TransportModes[k].efficiency, weatherFactor))
    {
      var mode := TransportModes[i];
      var totalElevation := SimulateElevation(baseElev, budget, mode.efficiency, weatherFactor);
      results := results + [OldRow(mode.name, mode.efficiency, totalElevation)];
      i := i + 1;
    }
    return Success(results);
  }
}

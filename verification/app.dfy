/**
 * The step-by-step dashboard with five presets and an optional user-defined
 * ("custom") lift method.  A run reads the readings kept in the session
 * store, resolves each field separately (elevation first), and builds one
 * row per preset followed by the custom row when it is enabled.
 */
module App {
  import opened Wrappers
  import opened Estimation

  /** The five built-in presets, in registry order. */
  const TransportModes: seq<Mode> := [
    Mode("Helium Balloon", ModeParams(10.0, 0.02, 0.2, 1.1)),
    Mode("Weather Balloon", ModeParams(15.0, 0.015, 0.25, 1.2)),
    Mode("Drone", ModeParams(20.0, 0.05, 0.15, 1.3)),
    Mode("Hot Air Balloon", ModeParams(50.0, 0.01, 0.1, 1.5)),
    Mode("Catapult", ModeParams(5.0, 0.005, 0.3, 1.05))
  ]

  /** The override checkboxes and the manual values next to them. */
  datatype Overrides = Overrides(overrideBaseElev: bool, manualBaseElev: real,
                                 overrideWeather: bool, manualWeatherFactor: real)

  /** The parameter bundle of the user-defined lift method. */
  datatype CustomMethod = CustomMethod(name: string, baseCost: real, costPerGram: real, costPerKm: real,
                                       efficiency: real, setupTimeHours: real, laborRate: real,
                                       materialFactor: real, overheadFactor: real, windSensitivity: real)

  /** A resolved context together with the wind speed the custom method is penalised by. */
  datatype Resolved = Resolved(ctx: Context, windSpeed: real)

  /**
   * Decides the base elevation and the weather factor of a run from the
   * stored readings and the overrides, or refuses the run.  The elevation
   * is decided (and refused) before the weather.
   */
  function Resolve(storedElev: Option<real>, storedWeather: Option<Weather>, ov: Overrides): (r: Result<Resolved, Refusal>)
    ensures r == Failure(NoBaseElevation) <==> storedElev.None? && !ov.overrideBaseElev
    ensures r == Failure(NoWeather) <==>
              (storedElev.Some? || ov.overrideBaseElev) && storedWeather.None? && !ov.overrideWeather
    ensures r.Success? <==> (storedElev.Some? || ov.overrideBaseElev) && (storedWeather.Some? || ov.overrideWeather)
    ensures r.Success? ==> r.value.ctx.baseElev == if ov.overrideBaseElev then ov.manualBaseElev else storedElev.value
    ensures r.Success? && ov.overrideWeather ==>
              r.value.ctx.factor == ov.manualWeatherFactor && r.value.windSpeed == 0.0
    ensures r.Success? && !ov.overrideWeather ==>
              r.value.windSpeed == WindSpeed(storedWeather.value) && r.value.ctx.factor == WeatherFactor(r.value.windSpeed)
  {
    if storedElev.None? && !ov.overrideBaseElev then Failure(NoBaseElevation)
    else
      var finalBaseElev := if storedElev.Some? && !ov.overrideBaseElev then storedElev.value else ov.manualBaseElev;
      if storedWeather.None? && !ov.overrideWeather then Failure(NoWeather)
      else if storedWeather.Some? && !ov.overrideWeather then
        var windSpeed := WindSpeed(storedWeather.value);
        Success(Resolved(Context(finalBaseElev, WeatherFactor(windSpeed)), windSpeed))
      else
        Success(Resolved(Context(finalBaseElev, ov.manualWeatherFactor), 0.0))
  }

  /**
   * The row the custom method contributes to a run resolved as `res`: never
   * below ground, however strong the wind, and with overhead at least 1
   * never cheaper than the same parameters as a built-in mode.
   */
  function CustomRow(cm: CustomMethod, res: Resolved, massG: real, altitudeKm: real): (r: Row)
    ensures r.mode == cm.name
    ensures r.elevation >= 0.0
    ensures cm.overheadFactor >= 1.0 && cm.baseCost >= 0.0 && cm.costPerGram >= 0.0 && massG >= 0.0
            && cm.costPerKm >= 0.0 && altitudeKm >= 0.0 && cm.setupTimeHours >= 0.0 && cm.laborRate >= 0.0
            && cm.materialFactor >= 0.0
            ==> r.cost >= EstimateCost(cm.baseCost, cm.costPerGram, cm.costPerKm, massG, altitudeKm)
  {
    Row(cm.name,
        SimulateCustomElevation(res.ctx.baseElev, altitudeKm, cm.efficiency, res.ctx.factor,
                                cm.windSensitivity, res.windSpeed),
        EstimateCustomCost(cm.baseCost, cm.costPerGram, cm.costPerKm, massG, altitudeKm,
                           cm.setupTimeHours, cm.laborRate, cm.materialFactor, cm.overheadFactor))
  }

  /**
   * With the weather overridden, the custom method gets no wind penalty: its
   * elevation is the built-in formula's, floored at 0.
   */
  lemma OverriddenWeatherHasNoWindPenalty(storedElev: Option<real>, storedWeather: Option<Weather>, ov: Overrides,
                                          cm: CustomMethod, massG: real, altitudeKm: real)
    requires ov.overrideWeather && (storedElev.Some? || ov.overrideBaseElev)
    ensures Resolve(storedElev, storedWeather, ov).Success?
    ensures var res := Resolve(storedElev, storedWeather, ov).value;
            var plain := SimulateElevation(res.ctx.baseElev, altitudeKm, cm.efficiency, ov.manualWeatherFactor);
            CustomRow(cm, res, massG, altitudeKm).elevation == if plain >= 0.0 then plain else 0.0
  {
  }

  /**
   * One press of "Run Simulation": collects the preset parameters from the
   * widgets (`edits`), resolves the context from the stored readings, then
   * builds the rows.
   */
  method Run(storedElev: Option<real>, storedWeather: Option<Weather>, ov: Overrides,
             massG: real, altitudeKm: real, edits: seq<ModeParams>,
             custom: CustomMethod, useCustomMethod: bool)
    returns (outcome: Result<seq<Row>, Refusal>)
    requires |edits| == |TransportModes|
    ensures Resolve(storedElev, storedWeather, ov).Failure? ==>
              outcome == Failure(Resolve(storedElev, storedWeather, ov).error)
    ensures Resolve(storedElev, storedWeather, ov).Success? ==>
              var res := Resolve(storedElev, storedWeather, ov).value;
              outcome.Success?
              && |outcome.value| == (if useCustomMethod then 6 else 5)
              && (forall i :: 0 <= i < |TransportModes| ==>
                    outcome.value[i] == BuiltinRow(Mode(TransportModes[i].name, edits[i]), res.ctx, massG, altitudeKm))
              && (useCustomMethod ==> outcome.value[5] == CustomRow(custom, res, massG, altitudeKm))
  {
    var transportParams := CollectModeParams(TransportModes, edits);

    if storedElev.None? && !ov.overrideBaseElev {
      return Failure(NoBaseElevation);
    }
    var finalBaseElev := if storedElev.Some? && !ov.overrideBaseElev then storedElev.value else ov.manualBaseElev;

    if storedWeather.None? && !ov.overrideWeather {
      return Failure(NoWeather);
    }
    var windSpeed, computedWeatherFactor;
    if storedWeather.Some? && !ov.overrideWeather {
      windSpeed := WindSpeed(storedWeather.value);
      computedWeatherFactor := WeatherFactor(windSpeed);
    } else {
      windSpeed := 0.0;
      computedWeatherFactor := ov.manualWeatherFactor;
    }
    var res := Resolved(Context(finalBaseElev, computedWeatherFactor), windSpeed);
    assert res == Resolve(storedElev, storedWeather, ov).value;

    var results := EstimateBuiltinModes(transportParams, res.ctx, massG, altitudeKm);
    if useCustomMethod {
      results := results + [CustomRow(custom, res, massG, altitudeKm)];
    }
    return Success(results);
  }
}

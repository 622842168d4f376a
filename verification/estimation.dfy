/**
 * The estimation engine shared by the dashboards: the weather factor, the
 * elevation and cost formulas, and the two loops every variant runs over its
 * registry of transport modes (collecting the per-mode parameters and building
 * one result row per mode).  Quantities are modelled as exact reals.
 */
module Estimation {
  import opened Wrappers

  /** A current-weather reading; either key may be missing from the provider's answer. */
  datatype Weather = Weather(temperature: Option<real>, windSpeed: Option<real>)

  /** The wind speed a run reads from a weather reading: 0 when the key is missing. */
  function WindSpeed(w: Weather): (r: real)
    ensures w.windSpeed.Some? ==> r == w.windSpeed.value
    ensures w.windSpeed.None? ==> r == 0.0
  {
    w.windSpeed.GetOr(0.0)
  }

  /** Cost and efficiency coefficients of one built-in transport mode. */
  datatype ModeParams = ModeParams(baseCost: real, costPerGram: real, costPerKm: real, efficiency: real)

  /** One entry of a transport-mode registry, in registry order. */
  datatype Mode = Mode(name: string, params: ModeParams)

  /** The resolved base elevation (m) and weather factor of a run. */
  datatype Context = Context(baseElev: real, factor: real)

  /** One line of the result table (values unrounded). */
  datatype Row = Row(mode: string, elevation: real, cost: real)

  /** Why a run was refused before any row was computed. */
  datatype Refusal =
    | NoBaseElevation        // no stored elevation and no elevation override
    | NoWeather              // no stored weather and no weather override
    | MissingDataOrOverrides // a reading is missing and not both overrides are set
    | MissingExternalData    // a fetched reading is missing (manual factor or not)

  /** Factor by which wind reduces lift: cut-offs at 10 and 20 km/h, right-open. */
  function WeatherFactor(windSpeed: real): (r: real)
    ensures r == 1.0 <==> windSpeed < 10.0
    ensures r == 0.9 <==> 10.0 <= windSpeed < 20.0
    ensures r == 0.8 <==> 20.0 <= windSpeed
  {
    if windSpeed < 10.0 then 1.0
    else if windSpeed < 20.0 then 0.9
    else 0.8
  }

  lemma WeatherFactorRange(windSpeed: real)
    ensures WeatherFactor(windSpeed) in {1.0, 0.9, 0.8}
    ensures 0.8 <= WeatherFactor(windSpeed) <= 1.0
  {
  }

  /** More wind never gives a larger factor. */
  lemma WeatherFactorAntitone(calmer: real, windier: real)
    requires calmer <= windier
    ensures WeatherFactor(windier) <= WeatherFactor(calmer)
  {
  }

  /** Final elevation (m) of a built-in mode asked to climb `altitudeKm` above the base. */
  function SimulateElevation(baseElev: real, altitudeKm: real, efficiency: real, factor: real): (r: real)
    ensures altitudeKm == 0.0 ==> r == baseElev
    ensures altitudeKm >= 0.0 && efficiency >= 0.0 && factor >= 0.0 ==> r >= baseElev
  {
    var additional := altitudeKm * 1000.0 * efficiency * factor;
    baseElev + additional
  }

  /** Elevation is linear in the target altitude and in the weather factor. */
  lemma ElevationLinear(baseElev: real, a1: real, a2: real, efficiency: real, f1: real, f2: real)
    ensures SimulateElevation(baseElev, a2, efficiency, f1) - SimulateElevation(baseElev, a1, efficiency, f1)
         == (a2 - a1) * 1000.0 * efficiency * f1
    ensures SimulateElevation(baseElev, a1, efficiency, f2) - SimulateElevation(baseElev, a1, efficiency, f1)
         == a1 * 1000.0 * efficiency * (f2 - f1)
  {
  }

  /** Cost (USD) of a built-in mode for a payload of `massG` grams. */
  function EstimateCost(baseCost: real, costPerGram: real, costPerKm: real, massG: real, altitudeKm: real): (r: real)
    ensures costPerGram >= 0.0 && massG >= 0.0 && costPerKm >= 0.0 && altitudeKm >= 0.0 ==> r >= baseCost
  {
    baseCost + (costPerGram * massG) + (costPerKm * altitudeKm)
  }

  /** Cost is linear in the payload mass and in the target altitude. */
  lemma CostLinear(baseCost: real, costPerGram: real, costPerKm: real, m1: real, m2: real, a1: real, a2: real)
    ensures EstimateCost(baseCost, costPerGram, costPerKm, m2, a1) - EstimateCost(baseCost, costPerGram, costPerKm, m1, a1)
         == costPerGram * (m2 - m1)
    ensures EstimateCost(baseCost, costPerGram, costPerKm, m1, a2) - EstimateCost(baseCost, costPerGram, costPerKm, m1, a1)
         == costPerKm * (a2 - a1)
  {
  }

  /**
   * Cost of the user-defined method: the built-in cost plus labour and
   * material, all scaled by the overhead factor.
   */
  function EstimateCustomCost(baseCost: real, costPerGram: real, costPerKm: real, massG: real, altitudeKm: real,
                              setupTimeHours: real, laborRate: real, materialFactor: real, overheadFactor: real): (r: real)
    ensures r == overheadFactor * (EstimateCost(baseCost, costPerGram, costPerKm, massG, altitudeKm)
                                   + setupTimeHours * laborRate + materialFactor)
    ensures overheadFactor >= 1.0 && baseCost >= 0.0 && costPerGram >= 0.0 && massG >= 0.0 && costPerKm >= 0.0
            && altitudeKm >= 0.0 && setupTimeHours >= 0.0 && laborRate >= 0.0 && materialFactor >= 0.0
            ==> r >= EstimateCost(baseCost, costPerGram, costPerKm, massG, altitudeKm) + setupTimeHours * laborRate + materialFactor
  {
    var partial := baseCost + (costPerGram * massG) + (costPerKm * altitudeKm) + (setupTimeHours * laborRate) + materialFactor;
    overheadFactor * partial
  }

  /**
   * Final elevation of the user-defined method: the built-in elevation minus a
   * wind penalty, floored at 0.
   */
  function SimulateCustomElevation(baseElev: real, altitudeKm: real, efficiency: real, factor: real,
                                   windSensitivity: real, windSpeed: real): (r: real)
    ensures r >= 0.0
    ensures SimulateElevation(baseElev, altitudeKm, efficiency, factor) - windSpeed * windSensitivity >= 0.0
            ==> r == SimulateElevation(baseElev, altitudeKm, efficiency, factor) - windSpeed * windSensitivity
    ensures SimulateElevation(baseElev, altitudeKm, efficiency, factor) - windSpeed * windSensitivity < 0.0
            ==> r == 0.0
  {
    var baseAdditional := altitudeKm * 1000.0 * efficiency * factor;
    var windPenalty := windSpeed * windSensitivity;
    var finalAltitude := baseElev + baseAdditional - windPenalty;
    if finalAltitude >= 0.0 then finalAltitude else 0.0
  }

  /** The row a built-in mode contributes to a run. */
  function BuiltinRow(m: Mode, ctx: Context, massG: real, altitudeKm: real): (r: Row)
    ensures r.mode == m.name
    ensures altitudeKm == 0.0 ==> r.elevation == ctx.baseElev
    ensures altitudeKm >= 0.0 && m.params.efficiency >= 0.0 && ctx.factor >= 0.0 ==> r.elevation >= ctx.baseElev
    ensures altitudeKm >= 0.0 && massG >= 0.0 && m.params.costPerGram >= 0.0 && m.params.costPerKm >= 0.0
            ==> r.cost >= m.params.baseCost
  {
    Row(m.name,
        SimulateElevation(ctx.baseElev, altitudeKm, m.params.efficiency, ctx.factor),
        EstimateCost(m.params.baseCost, m.params.costPerGram, m.params.costPerKm, massG, altitudeKm))
  }

  /**
   * Collects the per-mode parameters shown in the configuration widgets: one
   * entry per preset, in registry order, named after the preset and holding
   * the values `edits[i]` the user left in the four widgets of preset `i`.
   * The source keys a dictionary by mode name; a sequence has the same
   * entries in the same order because the preset names are distinct.
   */
  method CollectModeParams(presets: seq<Mode>, edits: seq<ModeParams>) returns (modes: seq<Mode>)
    requires |edits| == |presets|
    requires forall i, j :: 0 <= i < j < |presets| ==> presets[i].name != presets[j].name
    ensures |modes| == |presets|
    ensures forall i :: 0 <= i < |presets| ==> modes[i] == Mode(presets[i].name, edits[i])
  {
    modes := [];
    var i := 0;
    while i < |presets|
      invariant 0 <= i <= |presets|
      invariant |modes| == i
      invariant forall k :: 0 <= k < i ==> modes[k] == Mode(presets[k].name, edits[k])
    {
      modes := modes + [Mode(presets[i].name, edits[i])];
      i := i + 1;
    }
  }

  /** Builds one result row per built-in mode, in registry order. */
  method EstimateBuiltinModes(modes: seq<Mode>, ctx: Context, massG: real, altitudeKm: real) returns (rows: seq<Row>)
    ensures |rows| == |modes|
    ensures forall i :: 0 <= i < |modes| ==>
              rows[i].mode == modes[i].name
              && rows[i].elevation == SimulateElevation(ctx.baseElev, altitudeKm, modes[i].params.efficiency, ctx.factor)
              && rows[i].cost == EstimateCost(modes[i].params.baseCost, modes[i].params.costPerGram,
                                              modes[i].params.costPerKm, massG, altitudeKm)
  {
    rows := [];
    var i := 0;
    while i < |modes|
      invariant 0 <= i <= |modes|
      invariant |rows| == i
      invariant forall k :: 0 <= k < i ==> rows[k] == BuiltinRow(modes[k], ctx, massG, altitudeKm)
    {
      var params := modes[i].params;
      var totalElev := SimulateElevation(ctx.baseElev, altitudeKm, params.efficiency, ctx.factor);
      var totalCost := EstimateCost(params.baseCost, params.costPerGram, params.costPerKm, massG, altitudeKm);
      rows := rows + [Row(modes[i].name, totalElev, totalCost)];
      i := i + 1;
    }
  }
}

# Rubber-duck lift estimation engine, in Dafny

This project models the computational core of four Streamlit dashboards (`app.py`,
`app3.py`, `app2.py`, `appOld.py`). Each dashboard estimates how high a rubber duck
could be lifted by several transport methods, and at what cost. The core has five
parts:

- **Weather factor.** A wind speed in km/h maps to 1.0, 0.9 or 0.8, with cut-offs
  at 10 and 20.
- **Formulas.** Final elevation and cost for each built-in mode. In `app.py` there
  is also a user-defined ("custom") method with its own cost formula and a
  wind-penalised elevation with a floor of 0.
- **Parameter resolution.** For each run it decides whether the fetched reading or
  the user override gives the base elevation and the weather factor, or whether
  the run is refused. Each dashboard has its own rule, and each rule is modelled
  as written.
- **Result loop.** One row per preset, in registry order. In `app.py` an optional
  custom row comes last.
- **Reading store.** `app.py` and `app3.py` keep the last successfully fetched
  readings in session state. A failed fetch keeps the earlier value.

Quantities are exact `real`s. Fetch outcomes are parameters of type `Option`. A
missing `wind_speed` key reads as 0, as in the source.

Files:
- `wrappers.dfy`: `Option` and `Result`.
- `estimation.dfy`: module `Estimation`. It holds the formulas and the shared
  datatypes. It also holds the two loops that `app.py`, `app3.py` and `app2.py`
  share: collecting `transport_params` from the widgets, and building the rows.
- `session.dfy`: module `Session`. It holds the `ReadingStore` class and the
  history lemma about repeated fetches.
- `app.dfy`, `app3.dfy`, `app2.dfy`, `app_old.dfy`: modules `App`, `App3`, `App2`
  and `AppOld`. Each holds its dashboard's presets, its resolution rule as a
  function, and its run as a method proved against that function.

Some code is repeated between dashboards, verbatim or (the two loops of
`app2.py`) with only widget layout, labels, steps and variable names changed.
Each copy is modelled once and cited at its `app.py` lines:
- The weather factor and the built-in formulas are repeated at `app3.py:136-160`
  and `app2.py:142-166`. The weather factor is also repeated at `appOld.py:58-67`.
- The parameter-collection loop is repeated at `app3.py:253-290` and
  `app2.py:211-223`.
- The results loop is repeated at `app3.py:325-351` and `app2.py:245-274`.
- The session store is repeated at `app3.py:190-194` and `app3.py:215-229`.

Facts about the code that a reader might not expect:
- `app2.py` resolves the two fields together: when either reading is missing,
  only both overrides together let a run proceed.
- In `app.py` the weather override sets `wind_speed` to 0, so the custom row then
  has no wind penalty (`App.OverriddenWeatherHasNoWindPenalty`).
- A negative wind speed gives the factor 1.0.

About `app2.py`: its readings are locals that are set only in the script run in
which the fetch button was pressed (`app2.py:181-197`). A Streamlit button reads
true only in the run its own click causes. So in the run where "Run Simulation"
is pressed, the fetch branch is not taken. `App2.NoFetchNeedsBothOverrides` shows
that such a run then proceeds exactly when both overrides are set.

About fetching: the fetch functions are memoised with `st.cache_data`
(`app.py:95`, `app.py:112`, `appOld.py:21`, `appOld.py:38`). They catch every error
and return None, so a failure is cached like any other result: a repeated fetch
at the same coordinates returns the first outcome, a failure included. For
example, the sidebar buttons of `appOld.py` (`appOld.py:97-113`) discard their
results, but they fill the cache that each run reads again at `appOld.py:127-128`.
The model takes every fetch outcome as an unconstrained `Option` input, which
covers this. `AppOld.Run` takes the outcomes of the two calls made by the run.

## Model

| member | source | states |
|---|---|---|
| `Estimation.WeatherFactor` | app.py:135-144 | The factor is 1.0 exactly when wind < 10, 0.9 exactly when 10 ≤ wind < 20, and 0.8 exactly when wind ≥ 20. Negative wind gives 1.0. |
| `Estimation.WeatherFactorRange` | app.py:135-144 | The factor is always one of 1.0, 0.9, 0.8, so it lies in [0.8, 1.0]. |
| `Estimation.WeatherFactorAntitone` | app.py:135-144 | More wind never gives a larger factor. |
| `Estimation.WindSpeed` | app.py:421 | The wind speed read from a reading is its `wind_speed` value, or 0 when the key is missing. |
| `Estimation.SimulateElevation` | app.py:146-152 | At altitude 0 the final elevation is the base elevation. With non-negative altitude, efficiency and factor, it is never below the base. |
| `Estimation.ElevationLinear` | app.py:146-152 | Two-point slopes: elevation changes by Δaltitude·1000·efficiency·factor, and by altitude·1000·efficiency·Δfactor. |
| `Estimation.EstimateCost` | app.py:154-159 | With non-negative per-gram and per-km rates, mass and altitude, the cost is at least the base cost. |
| `Estimation.CostLinear` | app.py:154-159 | Two-point slopes: cost changes by cost_per_gram·Δmass and by cost_per_km·Δaltitude. |
| `Estimation.EstimateCustomCost` | app.py:162-188 | Custom cost = overhead × (built-in cost + setup_hours·labor_rate + material_factor). With overhead ≥ 1 and non-negative inputs it is at least the un-multiplied sum. |
| `Estimation.SimulateCustomElevation` | app.py:190-208 | The result is never negative. It equals the built-in elevation minus wind_speed·wind_sensitivity when that is ≥ 0, and 0 otherwise. |
| `Estimation.BuiltinRow` | app.py:435-454 | A built-in row carries the mode's name. At altitude 0 its elevation is the base. It is never below the base, and its cost never below the base cost, for non-negative inputs. |
| `Estimation.CollectModeParams` | app.py:308-345 | `transport_params` has one entry per preset, in preset order, named after the preset and holding that preset's widget values. The dict keyed by name matches a sequence because the preset names are distinct, which is a precondition. |
| `Estimation.EstimateBuiltinModes` | app.py:428-454 | One row per mode, in registry order. Row i carries mode i's name, its elevation by the elevation formula and its cost by the cost formula. |
| `Session.Latest` | app.py:275-283 | One field's update on a fetch: a returned reading replaces the stored one, and a failed fetch keeps it, so a stored reading is never lost. |
| `Session.Replay` | app.py:271-285 | The store after a history of fetches: it keeps its initial value if every fetch failed, and holds a reading if it held one before or any fetch succeeded. |
| `Session.ReadingStore.constructor` | app.py:247-250 | A session starts with no stored elevation and no stored weather. |
| `Session.ReadingStore.Fetch` | app.py:271-285 | A returned reading replaces the stored one. A failed fetch (None) leaves the stored value unchanged. Each field is handled on its own. |
| `Session.LastSuccess` | app.py:271-285 | If no fetch succeeded, the initial value remains. Otherwise the value is present and is one of the fetched readings. |
| `Session.ReplayIsLastSuccess` | app.py:271-285 | After any sequence of fetches, the store holds exactly the last successful reading, or the initial value if none succeeded. |
| `App.Resolve` | app.py:406-425 | Refused with NoBaseElevation iff no elevation is stored and there is no override. This check comes first. Refused with NoWeather iff the elevation resolves but no weather is stored and there is no override. Otherwise the elevation override wins over a stored value. The weather override gives the manual factor with wind 0. Stored weather gives the factor computed from its wind (default 0). |
| `App.OverriddenWeatherHasNoWindPenalty` | app.py:416-466 | With the weather overridden, the custom row's elevation is the built-in formula with the manual factor, floored at 0. There is no wind penalty. |
| `App.CustomRow` | app.py:457-484 | The custom row carries the custom name. Its elevation is never negative. With overhead ≥ 1 and non-negative inputs, its cost is at least the built-in cost of the same parameters. |
| `App.Run` | app.py:405-484 | A refused resolution gives the same refusal and no rows. Otherwise there are 5 rows, or 6 with the custom method. Rows 0-4 are the presets in `TRANSPORT_MODES` order, computed with the resolved context and the widget values. The custom row is last. |
| `App3.Resolve` | app3.py:304-322 | Refused iff no elevation is stored and there is no override (checked first), or iff no weather is stored and there is no override. The overrides select the manual values. Stored weather gives the factor from its wind (default 0). |
| `App3.SameRuleAsApp` | app3.py:304-322 | `app3.py` refuses and accepts exactly the runs `app.py` does, with the same refusal and the same context. |
| `App3.Run` | app3.py:303-351 | A refusal gives no rows. Otherwise there are exactly 4 rows, one per preset in `TRANSPORT_MODES` order, and no custom row. |
| `App2.Readings` | app2.py:181-197 | Readings exist only in a script run that fetched. Otherwise both are None. |
| `App2.Resolve` | app2.py:233-242 | Refused iff a reading is missing and not both overrides are set. When accepted, each field takes its reading unless that reading is missing or overridden, and then takes the manual value. |
| `App2.StricterThanPerField` | app2.py:233-242 | Every run this rule accepts is accepted by the per-field rule of `app.py`, with the same context. |
| `App2.WeatherOverrideAloneRefused` | app2.py:233-235 | A stored elevation plus a missing weather reading with only the weather override is refused here but accepted per field. |
| `App2.NoFetchNeedsBothOverrides` | app2.py:195-242 | In a script run without a fetch, the run proceeds iff both overrides are set, and then uses the two manual values. |
| `App2.Run` | app2.py:232-274 | A refusal gives no rows. Otherwise there are exactly 4 rows, one per preset in `TRANSPORT_MODES` order, computed with the resolved context. |
| `AppOld.Budget` | appOld.py:88-89 | The budget is 50 iff "$50" is chosen, and 500 otherwise. |
| `AppOld.SimulateElevation` | appOld.py:69-76 | (budget/50)·efficiency·factor·50 added to the base equals base + budget·efficiency·factor. |
| `AppOld.Resolve` | appOld.py:124-138 | Refused iff either fetched reading is missing. Otherwise the base is the fetched elevation and the factor comes from the wind (default 0), replaced by the manual factor when that is selected. |
| `AppOld.ManualFactorStillNeedsReadings` | appOld.py:124-138 | Selecting the manual weather factor does not let a run proceed when a reading is missing. |
| `AppOld.Run` | appOld.py:124-150 | A refusal gives no rows. Otherwise there is one row per transport option, in list order. Each row carries that option's name and efficiency and the elevation base + budget·efficiency·factor. |

## Left out

- HTTP fetching (`fetch_base_elevation`, `fetch_weather` and the Open-Elevation and Open-Meteo calls): only their outcome is modelled, as an `Option`.
- `st.cache_data` memoisation: a repeated fetch at the same coordinates returns the first outcome, a failure included. The model takes each fetch outcome as an unconstrained input, which covers this, but it does not state that repeated fetches agree.
- UI: page configuration, CSS, widgets, expanders, columns and message texts. Widget values are inputs (`edits`, `Overrides`, mass, altitude, custom bundle). Widget bounds such as mass ≥ 1, altitude 0-30 and overhead 1-3 appear only as hypotheses of the property lemmas that need them.
- Presentation: the pandas `DataFrame`, `set_index("Mode")` (so a custom name equal to a preset name is not examined) and the Altair charts.
- Rounding: `round(x, 2)` and `round(x, 1)` apply only when rows are displayed. Rows carry unrounded values.
- Floating point: all arithmetic is exact `real` arithmetic.
- The temperature reading: it is only displayed and never used in a computation.
- A `wind_speed` key that is present with a non-numeric value: the model reads only "present with a number" or "absent".
- The separate fetch buttons of `appOld.py` (`appOld.py:97-113`): their results are discarded. They affect a run only through the cache, which the model does not represent (see above).

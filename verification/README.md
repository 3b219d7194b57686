# Substation Alpha digital twin — a Dafny model

This project models the core of a substation "digital twin" written in Python on PyPSA:

- **Substation Alpha**: a fixed network of five buses, a slack external-grid generator, the 40 MVA transformer T1, three 20 kV feeder lines and three loads.
- **The network twin**: a step counter plus the network.
  - `tick` redraws every load from a 12-hour diurnal profile, a per-category base and a noise factor.
  - `get_system_status` reports T1's loading and at most one alert.
  - `inject_anomaly("overload")` pins the industrial load at 25 MW.
- **The transformer health model and the asset manager**: a stateless two-band score on oil temperature and dissolved hydrogen.
- **One iteration of the 1 Hz telemetry loop**: tick, status, synthesised sensors, health update and payload. The `running` flag lifecycle is modelled around it.

Everything is a pure function over immutable datatypes and `real`s. These become explicit parameters:

- the random draws;
- the wall clock;
- what the linear power flow solver leaves in the T1 row.

Modules, one per source file:

| file | module | source |
|---|---|---|
| `wrappers.dfy` | `Wrappers` | `Option` |
| `text.dfy` | `Text` | Python's substring test `sub in s` |
| `topology.dfy` | `Topology` | `src/digital_twin/station_scenario.py` |
| `grid_model.dfy` | `GridModel` | `src/digital_twin/grid_model.py` |
| `asset_models.dfy` | `AssetModels` | `src/digital_twin/asset_models.py` |
| `stream_processor.dfy` | `StreamProcessor` | `src/ingestion/stream_processor.py` |

Behaviour of the code worth knowing before reading the contracts:

- **No topology validation.** `create_substation_alpha` adds components without checking bus references or names (src/digital_twin/station_scenario.py:16-78). The model states referential integrity as the predicate `Topology.WellFormed` and proves that Substation Alpha satisfies it.
- **Solver failures are swallowed.** `_run_simulation` catches every exception, prints it and sets no flag (src/digital_twin/grid_model.py:17-26). In the model, `Tick` always completes.
- **`start_stream` is not idempotent.** It sets `running` to true unconditionally and enters the loop (src/ingestion/stream_processor.py:17-19).
- **Delivery errors are not caught.** The callback is awaited without a `try` (src/ingestion/stream_processor.py:52-53), so an exception from it propagates out of `start_stream`.
- **An overload does not raise the reported loading.** The status reads T1 from the links table, where it is not declared (src/digital_twin/grid_model.py:66-81). As written, the code always reports the 42% placeholder (see Findings).

## Model

| member | source | states |
|---|---|---|
| Text.ContainsIffOccurs | src/digital_twin/grid_model.py:42-44 | The name test used to pick a load's category holds exactly when the category string occurs as a contiguous slice of the load name |
| Topology.TotalLoad | src/digital_twin/grid_model.py:57 | The summed demand of the load table is non-negative whenever every setpoint is |
| Topology.Find | src/digital_twin/grid_model.py:69-70 | A row lookup by name returns a row of the table that carries that name, and finds nothing only when no row has the name |
| Topology.SubstationAlpha | src/digital_twin/station_scenario.py:5-78 | `create_substation_alpha` builds five buses and three loads whose base demand totals 17 MW; T1 is its only transformer and no link is declared |
| Topology.AlphaWellFormed | src/digital_twin/station_scenario.py:16-78 | Substation Alpha has five pairwise distinct bus names, distinct load names and non-negative setpoints; every generator, transformer, line and load names a declared bus; exactly one generator is slack |
| Topology.AlphaDistinctNames | src/digital_twin/station_scenario.py:19-76 | The five buses and the three loads are added under pairwise distinct names |
| Topology.AlphaReferencesDeclaredBuses | src/digital_twin/station_scenario.py:19-76 | Every generator, transformer, line and load is attached to one of the five declared buses |
| Topology.AlphaSlackAndTransformer | src/digital_twin/station_scenario.py:27-39 | The single generator is the slack on HV_Grid_Bus, so exactly one generator is slack; T1 joins HV_Grid_Bus to MV_Station_Bus at 40 MVA; the network declares no links |
| Topology.AlphaFeeders | src/digital_twin/station_scenario.py:46-62 | All three feeders start at MV_Station_Bus and end at distinct declared feeder-end buses, rated 10, 10 and 15 |
| Topology.AlphaLoads | src/digital_twin/station_scenario.py:66-76 | The base setpoints are 5, 4 and 8 MW, summing to 17 MW |
| GridModel.ProfileFactor | src/digital_twin/grid_model.py:35-36 | The factor for any step is one of the twelve profile entries and lies within [0.3, 0.9] |
| GridModel.ProfilePeriodic | src/digital_twin/grid_model.py:35-36 | The profile repeats every twelve steps |
| GridModel.CategoryBase | src/digital_twin/grid_model.py:41-44 | A name containing Industrial gets 8 MW, whatever else it contains; one with Commercial but not Industrial gets 4 MW; any other name gets 5 MW |
| GridModel.AlphaLoadCategories | src/digital_twin/grid_model.py:41-44 | Each Alpha load name contains exactly one category substring, so the three loads get bases 5, 4 and 8 |
| GridModel.RescaleLoads | src/digital_twin/grid_model.py:39-47 | Every load keeps its name and bus, and its setpoint becomes category base × profile factor × its own noise draw |
| GridModel.Tick | src/digital_twin/grid_model.py:30-49 | The step counter rises by exactly one; every load is redrawn from the profile entry of the new step; buses, generators, transformers, lines and links are untouched |
| GridModel.TickSetpointBounds | src/digital_twin/grid_model.py:39-47 | With noise in [0.8, 1.2], every new setpoint is non-negative and lies within [0.24, 1.08] times its category base |
| GridModel.LoadingPercent | src/digital_twin/grid_model.py:69-71 | Loading is non-negative and equals the absolute flow as a percentage of the rating |
| GridModel.Status | src/digital_twin/grid_model.py:51-83 | The status reports the current step and total demand. With no T1 row it reports 42.0 and no alerts. Otherwise it reports the loading, with the critical alert exactly above 90, the warning exactly in (80, 90], and never more than one alert |
| GridModel.StatusAlertsMatchClassification | src/digital_twin/grid_model.py:74-77 | The alert list is empty, the warning alone, or the critical alert alone, exactly as the loading classifies as steady, warning or critical |
| GridModel.InjectAnomaly | src/digital_twin/grid_model.py:85-89 | "overload" sets Load_Industrial to 25 MW and changes no other load, name, bus or the step counter; any other kind returns the twin unchanged |
| GridModel.SetSetpointRaisesTotal | src/digital_twin/grid_model.py:88 | Forcing a setpoint above every existing value under that label strictly raises total demand, both when the row exists and when pandas appends it |
| GridModel.NewTwin | src/digital_twin/grid_model.py:7-9 | The new twin is at step 0 with Alpha's topology and load rows, carrying 17 MW of demand |
| GridModel.SetSetpoint | src/digital_twin/grid_model.py:88 | pandas `.at[name, "p_set"] = v`: afterwards a row named `name` exists and every such row has setpoint v. Existing rows keep their names and buses, and rows with other names keep their setpoints. When no row had the name, exactly one row (name, no bus, v) is appended |
| GridModel.TickPreservesAlphaShape | src/digital_twin/grid_model.py:30-49 | A tick changes only setpoints, so the twin keeps Alpha's topology and load rows |
| GridModel.InjectPreservesAlphaShape | src/digital_twin/grid_model.py:85-89 | An injected anomaly of any kind keeps Alpha's topology and load rows |
| GridModel.LinkRowLookup | src/digital_twin/grid_model.py:69-70 | As written, the T1 row exists only when a link named T1_Transformer exists and the solver left a flow; its rating is that link's p_nom |
| GridModel.TransformerRowLookup | src/digital_twin/station_scenario.py:35-39 | Corrected, the T1 row is read from the transformers table, where the scenario declares T1; its rating is T1's s_nom |
| GridModel.AsWrittenStatusIsFallback | src/digital_twin/grid_model.py:66-81 | As written, every twin reachable from construction reports the 42% placeholder and no alerts, whatever flow the solver computed |
| GridModel.InjectedInitialLoads | src/digital_twin/grid_model.py:85-89 | An overload injected into the initial twin leaves setpoints 5, 4 and 25 MW, 34 MW in all |
| GridModel.AsWrittenOverloadUnseen | src/digital_twin/grid_model.py:66-81 | Counterexample: 34 MW through T1 (85% of 40 MVA) after an injected overload, yet the status reports 42.0 with no alert |
| GridModel.CorrectedOverloadWarns | src/digital_twin/grid_model.py:69-77 | With the corrected lookup, the same overload reads 85% and raises exactly the warning |
| GridModel.CorrectedLoading | src/digital_twin/grid_model.py:69-72 | With the corrected lookup and a lossless flow, T1's loading is the absolute total demand as a percentage of 40 MVA |
| GridModel.CorrectedInjectRaisesLoading | src/digital_twin/grid_model.py:85-89 | With the corrected lookup, an injected overload strictly raises T1's loading whenever the industrial load was below 25 MW and no setpoint was negative |
| GridModel.CorrectedTickThenInjectRaisesLoading | src/digital_twin/grid_model.py:30-89 | With the corrected lookup, after any tick with in-range noise an injected overload strictly raises T1's loading |
| AssetModels.NewTransformerHealth | src/digital_twin/asset_models.py:4-24 | A new model carries its id, full health 100 and its creation time; its limits are 90 °C, 5 mm/s and 100 ppm |
| AssetModels.ConditionScore | src/digital_twin/asset_models.py:61-67 | The score is always 100, 80 or 40, hence within [0, 100] |
| AssetModels.ClampNeverApplies | src/digital_twin/asset_models.py:61-67 | The unclamped condition is never below 40, so `max(0, ·)` never changes it |
| AssetModels.ScoreBands | src/digital_twin/asset_models.py:61-65 | With strict thresholds: 100 exactly when temp ≤ 85 and h2 ≤ 50; 40 exactly when temp > 95 or h2 > 100; 80 otherwise |
| AssetModels.ScoreAntitone | src/digital_twin/asset_models.py:61-65 | Raising oil temperature or hydrogen never raises the score |
| AssetModels.StatusLabel | src/digital_twin/asset_models.py:72 | The label is "Critical" exactly when the score is below 40, and "Good" exactly otherwise |
| AssetModels.NeverCritical | src/digital_twin/asset_models.py:67-72 | The status label is always "Good": "Critical" needs a score below 40, and none is reachable |
| AssetModels.Update | src/digital_twin/asset_models.py:26-73 | The returned record carries the model's id and a score labelled "Good". With oil temperature and hydrogen read with defaults 40 and 10, the score is 100 exactly when temperature <= 85 and H2 <= 50; 80 exactly when one of those is exceeded but temperature <= 95 and H2 <= 100; 40 exactly when temperature > 95 or H2 > 100. The model stores that score and the update time and nothing else changes |
| AssetModels.UpdateDependsOnlyOnTempAndH2 | src/digital_twin/asset_models.py:33-67 | Two updates return the same record whenever the ids and the oil temperature and hydrogen readings (after defaults) agree. Load, vibration, the previous score and the update time have no effect |
| AssetModels.MissingReadingsGiveFullHealth | src/digital_twin/asset_models.py:35-37 | A sample lacking oil temperature and hydrogen is scored at the defaults 40 °C and 10 ppm, giving 100 |
| AssetModels.HealthExamples | tests/test_twin.py:22-31 | (60 °C, 10 ppm) scores 100, "Good"; (110 °C, 200 ppm) scores 40, below 50 and still "Good" |
| AssetModels.NewAssetManager | src/digital_twin/asset_models.py:76-80 | The manager registers exactly one model, T1_Transformer, under its own id, at full health |
| AssetModels.ProcessTelemetry | src/digital_twin/asset_models.py:82-85 | An unregistered id returns None and changes nothing. A registered one returns that model's update and replaces only that model. The registered ids never change, and a model keeps the id it is registered under |
| StreamProcessor.NewWorldHealthy | src/ingestion/stream_processor.py:5-6 | The shared twin and asset manager start Alpha-shaped with T1 registered |
| StreamProcessor.Iterate | src/ingestion/stream_processor.py:19-53 | An iteration ticks the twin exactly once and then reads its status. The health update goes to T1, stamped with the update's own clock reading, and the payload carries that status and the later clock reading. The iteration fails, after the tick, exactly when T1 is not registered |
| StreamProcessor.SensorReadings | src/ingestion/stream_processor.py:31-41 | `asset_data` has exactly the four sensor keys: the loading as given, oil temperature 40 + L/2 + noise, and the vibration and hydrogen draws |
| StreamProcessor.AssetEntry | src/ingestion/stream_processor.py:49 | `{**asset_data, **health_status}` has every key of both sides; a sensor key outside the health keys keeps its reading, and the three health fields come from the record |
| StreamProcessor.IterationContents | src/ingestion/stream_processor.py:31-49 | The health model is fed the status's loading. The payload has one entry, for T1, holding every sensor reading and every health field unchanged |
| StreamProcessor.IterationSensorBounds | src/ingestion/stream_processor.py:33-43 | With in-range draws, oil temperature is within [38 + L/2, 42 + L/2], vibration within [0.1, 1.2] and hydrogen within [5, 15]. Neither gas arm fires, so the score follows the temperature bands alone, and the iteration always emits |
| StreamProcessor.FallbackIterationFullHealth | src/ingestion/stream_processor.py:31-43 | With the 42% placeholder, oil temperature lies in [59, 63] and T1 scores 100, "Good" |
| StreamProcessor.AsWrittenIterationFullHealth | src/ingestion/stream_processor.py:26-43 | As written, every iteration from a reachable world scores T1 at full health |
| StreamProcessor.NewStreamMock | src/ingestion/stream_processor.py:13-14 | A new stream is not running |
| StreamProcessor.Stop | src/ingestion/stream_processor.py:60-61 | `stop` clears the running flag |
| StreamProcessor.RunFrom | src/ingestion/stream_processor.py:19-55 | A loop whose flag is already cleared emits nothing and changes nothing. It emits at most one frame per round. The subscriber receives every frame, or none when there is no subscriber |
| StreamProcessor.RunFromStep | src/ingestion/stream_processor.py:19-55 | One pass of the loop ticks the twin once. A failed pass ends the run with no frame. An emitted pass puts its payload, stamped one step after the starting twin, ahead of the rest of the run |
| StreamProcessor.RunFromTimestamps | src/ingestion/stream_processor.py:26-48 | Frame i carries twin step start + i + 1, so the grid timestamps of successive frames strictly increase |
| StreamProcessor.RunFromNoFrameAfterStop | src/ingestion/stream_processor.py:19-61 | Every frame except the last comes from a round without a stop request, so no frame follows the round in which stop arrived |
| StreamProcessor.IterateKeepsHealthy | src/ingestion/stream_processor.py:43 | From a world with T1 registered, an iteration always emits, advances the twin by one step and keeps T1 registered |
| StreamProcessor.RunFromHealthy | src/ingestion/stream_processor.py:19-55 | With T1 registered the loop never raises and T1 stays registered. The twin advances exactly once per emitted frame |
| StreamProcessor.StopSeenCons | src/ingestion/stream_processor.py:60-61 | A stop was requested in some round exactly when it was requested in the first round or in one of the rest |
| StreamProcessor.RunFromStops | src/ingestion/stream_processor.py:19-61 | A running loop with T1 registered emits one frame per round until the round in which stop arrived, that round included, or to the end of the window |
| StreamProcessor.RunFromFlag | src/ingestion/stream_processor.py:19-61 | With T1 registered, the flag is still set at the end exactly when it was set at the start and no round saw a stop |
| StreamProcessor.StartStream | src/ingestion/stream_processor.py:16-19 | Starting sets the flag whatever its previous value. With T1 registered the loop never raises and emits at least one frame when there is a round. It then runs until the round in which stop arrived, or to the end of the window, and the flag is still set at the end exactly when no round saw a stop |

## Findings

| source | as written | input that shows it | evidently intended | confidence | as-written member | corrected member |
|---|---|---|---|---|---|---|
| src/digital_twin/grid_model.py:69-70 | The status reads T1's flow and rating from the links table, but the scenario declares T1 as a Transformer. The lookup raises, and the status always reports the 42.0 placeholder with no alert | The initial twin after `inject_anomaly("overload")`: 5 + 4 + 25 = 34 MW flow through T1, 85% of 40 MVA, yet the status shows 42.0 and no alert | Read T1 from the transformers table with its `s_nom`. The same input then reads 85% with the WARNING alert, and an injected overload strictly raises the loading | medium; not executed | GridModel.AsWrittenOverloadUnseen | GridModel.TransformerRowLookup |

The scenario file's own comment says T1 was changed from a Link to a Transformer. The status code's comment still says "Transformer (Link)". This points to a stale lookup rather than a deliberate placeholder.

`GridModel.LinkRowLookup` models the lookup as written. `GridModel.AsWrittenStatusIsFallback` proves that it never finds T1 in a reachable twin.

`GridModel.TransformerRowLookup` is the corrected lookup. Three lemmas prove the intended behaviour for it:

- `GridModel.CorrectedOverloadWarns`;
- `GridModel.CorrectedInjectRaisesLoading`;
- `GridModel.CorrectedTickThenInjectRaisesLoading`.

These lemmas take T1's flow to be the total demand. This is what a lossless linear flow gives for Alpha's radial layout (`GridModel.LosslessT1Flow`).

The telemetry loop takes the T1 row as an input (`Samples.t1`), so either lookup can supply it. The lemmas about the as-written behaviour state that lookup explicitly (`StreamProcessor.AsWrittenIterationFullHealth`).

## Left out

- PyPSA's linear power flow (`network.lpf()`) and all pandas internals: these are foreign library calls. The solver's output for T1 is an input to `Status`, and the initial and post-injection re-solves have no modelled effect. Line and transformer impedances are carried but unused.
- GridModel.Status: reports the loading unrounded; `round(loading, 2)` is left out, and the alert comparisons use the unrounded value, as the code does.
- IEEE floating point: all quantities are exact reals.
- Zero ratings: `Rating` is strictly positive, so a zero `p_nom` or `s_nom` (numpy would produce inf or nan) is not representable.
- `random.uniform` and `datetime.now()`: replaced by the fields of `Samples` and by `Instant`. The draws' ranges are the hypothesis `SamplesInRange`. Each iteration reads the clock twice, once inside the health update (src/digital_twin/asset_models.py:31) and once for the payload (src/ingestion/stream_processor.py:47). These are the separate inputs `updatedAt` and `sentAt`.
- StreamProcessor.RunFromTimestamps: orders only the grid's step counter. The model makes no claim about the order of wall-clock readings, within an iteration or across frames, because the clock is an unconstrained input.
- asyncio scheduling, `asyncio.sleep`, concurrent HTTP readers and the websocket transport: these are concurrency and I/O. The loop is modelled over a finite window of rounds. `stop()` arriving mid-round is the round's `stopRequested` flag.
- A subscriber callback that raises: the model's subscriber never fails, so only delivery or non-delivery is modelled.
- `_generate_data`: returns an empty dictionary that nothing reads.
- `AssetHealthModel.update` on the base class: never called, since the manager registers only `TransformerHealth`.
- `temp_factor`, `vib_factor` and `gas_factor`: computed and discarded. `AssetModels.UpdateDependsOnlyOnTempAndH2` shows that nothing else can affect the result.
- Non-numeric sensor values: the sample dictionary holds reals only.
- pandas row enlargement: when `Load_Industrial` is absent, the appended row's missing bus is the empty string.
- Logging (`print`) and the module's `__main__` block.
- The RAG, LLM, HTTP routing, application bootstrap and debug scripts: these are outside the twin's core.

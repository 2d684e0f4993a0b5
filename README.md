# Retraining decision engine — a Dafny model

This project models the automatic-retraining core of a California-housing price service:

- the `RetrainTrigger` engine (`src/models/retrain_trigger.py`). It keeps a persisted JSON state record (last retrain time, last data fingerprint, last model score, retrain counter, last check time) and a process-wide configuration dict. It decides whether the model should be retrained: disabled switch, then cooldown, then data change, then absolute score threshold, then score degradation. It runs the training job and records the outcome.
- the policy that the HTTP layer (`src/api/app.py`) puts around the engine: the 503 availability guard, the 429 "too soon" gate with its `force` override, and the filtering of configuration payloads. Also the `MetricsCollector` request counters.
- the target-column search `detect_target_column` of the training script (`src/train.py`).

The outside world becomes inputs. Each clock reading is its own integer parameter, in seconds. So are the data fingerprint (a hex digest, `""` for a missing file), the model score (`Option<real>`) and the training job's outcome (`JobOutcome`: an exception, or an exit code with stderr). The engine is a class. Its `config` field is the configuration dict. Its `stateFile` field is the state file (`None` while it does not exist). Each engine method is proved against a pure function of the old record. `Decide` (the verdict of `should_retrain`), `Retrain` (`trigger_retrain`), `CheckAndRetrainOutcome` (`check_and_retrain`) and `Status` (`get_retrain_status`) are those functions. The properties are lemmas and contracts about them.

Modules: `Wrappers` (Option, Result), `Text` (`str.join`, substring test), `EngineState` (records, merges, data-change check), `Policy` (`should_retrain`), `Engine` (the `RetrainTrigger` class and the CLI), `Api` (endpoint policy), `Metrics` (`MetricsCollector`), `Train` (`detect_target_column`).

Where the code behaves in a surprising way, the model follows the code:

- `last_retrain_time` is the retrain's *start* time, not its completion time.
- The degradation check tests the stored score for Python truthiness, so a stored `0.0` counts as absent.
- The cooldown also tests truthiness. A stored retrain time is always a non-empty ISO string, so truthiness is presence.
- A negative elapsed time (the clock went back) counts as cooling down.
- `force` exists only in the HTTP layer. The engine's `trigger_retrain` never re-checks the cooldown.
- The 429 gate tests whether the reason *text* contains "Too soon since last retrain". `Api.GateRejectsOnlyCooldown` proves that on the engine's own verdicts this is exactly the cooldown case.
- State writes are plain read-merge-write rewrites, with no lock and no atomic rename. The model has one owner and no concurrency.
- The configuration is never persisted.

## Model

| member | source | states |
|---|---|---|
| `EngineState.MergeState` | src/models/retrain_trigger.py:84-89 | the state merge: each supplied key takes its new value, each other key keeps its value |
| `EngineState.MergeStateIdempotent` | src/models/retrain_trigger.py:86-87 | merging the same update twice equals merging it once |
| `EngineState.MergeConfig` | src/models/retrain_trigger.py:285-288 | the config merge: supplied keys take the new value, all others keep theirs |
| `EngineState.SentinelOnlyForMissingFile` | src/models/retrain_trigger.py:96-104 | with a 32-character digest, the fingerprint is `""` exactly when the file is missing, and otherwise the digest of the file's bytes |
| `EngineState.HasDataChanged` | src/models/retrain_trigger.py:106-115 | changed iff the stored fingerprint is not `Some(current)` (unset or different); the current fingerprint is returned |
| `EngineState.CalculateDataHash` | src/models/retrain_trigger.py:91-104 | a missing file gives the `""` sentinel, an existing one the digest of its bytes; `SentinelOnlyForMissingFile` shows the sentinel never collides with a real digest |
| `EngineState.UnsetHashAlwaysChanged` | src/models/retrain_trigger.py:112-114 | with no stored fingerprint every fingerprint, `""` included, counts as changed |
| `EngineState.StoredHashComparison` | src/models/retrain_trigger.py:110-115 | after storing fingerprint `h`, a fingerprint reads as changed iff it differs from `h` |
| `Policy.Truthy` | src/models/retrain_trigger.py:187 | a stored score of `None` or 0.0 is false, every other stored score is true |
| `Policy.Verdict.ShouldRetrain` | src/models/retrain_trigger.py:161-191 | false for the disabled and cooldown returns; for an assessment, true exactly when at least one reason was collected |
| `Policy.PerformanceTrigger` | src/models/retrain_trigger.py:177-188 | no reason without a score; below-threshold iff score < minimum; degradation iff not below, stored score truthy and drop > threshold; never both |
| `Policy.CoolingDown` | src/models/retrain_trigger.py:165-169 | cooling down iff a retrain time is stored and the clock is before that time plus `max_retrain_frequency`; never without a stored time |
| `Policy.Decide` | src/models/retrain_trigger.py:152-194 | disabled first, then cooldown; otherwise data change is in the reasons iff the data changed, and it comes first; the performance reason, when one fires, is collected (also beside a data change) and is the only other reason; the verdict is true iff some reason fired |
| `Policy.DisabledShortCircuits` | src/models/retrain_trigger.py:160-162 | with the switch off, every state, clock, fingerprint and score gives `Disabled` |
| `Policy.CooldownDominates` | src/models/retrain_trigger.py:164-170 | while cooling down, the verdict is negative and the same for every fingerprint and score |
| `Policy.ReasonOrder` | src/models/retrain_trigger.py:172-192 | the reason text is "Data has changed", then "; ", then the performance reason; with no reason it is "No retrain triggers" |
| `Policy.TriggerText` | src/models/retrain_trigger.py:172-188 | "Data has changed" exactly for a data change; "Performance below threshold (" quoting the score and the threshold; "Performance degraded (" quoting the old and the new score |
| `Policy.TriggerTexts` | src/models/retrain_trigger.py:192 | one text per reason, in the reasons' order |
| `Policy.ReasonText` | src/models/retrain_trigger.py:161-192 | "Auto-retrain disabled" when switched off; "Too soon since last retrain (<stamp>)" while cooling down; "No retrain triggers" with no reason; a single reason is its own text (`ReasonOrder` gives two) |
| `Policy.TooSoonTextIdentifiesCooldown` | src/models/retrain_trigger.py:160-194 | a negative verdict's text contains "Too soon since last retrain" iff it is the cooldown verdict |
| `Policy.BelowThresholdAfterCooldown` | tests/test_retraining.py:119-126 | retrain 7 hours ago, score 0.4, defaults: retrain, with a below-threshold (0.4 < 0.5) reason |
| `Policy.RecentRetrainIsTooSoon` | tests/test_retraining.py:110-117 | a retrain recorded less than 6 hours ago (including just now, as the test stores) under the default cooldown: "too soon" verdict whatever the fingerprint and score |
| `Engine.AfterRetrain` | src/models/retrain_trigger.py:219-230 | a successful retrain adds 1 to the counter, sets both times to the start, and stores the fingerprint and new score |
| `Engine.Retrain` | src/models/retrain_trigger.py:196-253 | success iff the job exits 0. On success: record as `AfterRetrain`, new score and duration returned. On failure: record unchanged, and the error is the exception text or "Training failed: " + stderr |
| `Engine.FailedJobReportsStderr` | src/models/retrain_trigger.py:216-217 | on a non-zero exit the error contains the captured stderr and the record is unchanged |
| `Engine.RetrainedDataIsUnchanged` | src/models/retrain_trigger.py:223-226 | after a successful retrain, the fingerprint it stored no longer counts as a change |
| `Engine.AfterCheck` | src/models/retrain_trigger.py:257 | stamping the check time changes only `last_check_time` |
| `Engine.CheckAndRetrainOutcome` | src/models/retrain_trigger.py:255-265 | decides on the stamped record and retrains iff the verdict is true, with reason "Auto-trigger: " + verdict text. A positive verdict gives exactly `Retrain` on the stamped record; no retrain or a failed one leaves only the stamp; the counter grows by 1 exactly on success |
| `Engine.AutoRetrainsAreSpaced` | src/models/retrain_trigger.py:164-170 | if an automatic retrain succeeds and the clock did not go back, the new retrain time is at least `max_retrain_frequency` after the previous one |
| `Engine.Status` | src/models/retrain_trigger.py:267-283 | the status report holds the switch, the verdict and its text, the stored times and counter, the config, and whether the data changed |
| `Engine.FreshStatus` | src/models/retrain_trigger.py:69-75 | a fresh state reports changed data (even for the `""` fingerprint), counter 0 and a positive verdict |
| `Engine.RetrainTrigger.constructor` | src/models/retrain_trigger.py:46-63 | default configuration; the existing state file is kept, otherwise the initial record is written |
| `Engine.RetrainTrigger.EnsureStateFile` | src/models/retrain_trigger.py:65-77 | writes `retrain_count = 0` and all other keys `None` only when no state file exists; never overwrites one |
| `Engine.RetrainTrigger.GetState` | src/models/retrain_trigger.py:79-82 | the record stored in the state file |
| `Engine.RetrainTrigger.UpdateState` | src/models/retrain_trigger.py:84-89 | the new record is the old one merged with the update |
| `Engine.RetrainTrigger.ShouldRetrain` | src/models/retrain_trigger.py:152-194 | returns `Decide`'s verdict on the stored record and its text; switch off gives `(false, "Auto-retrain disabled")` |
| `Engine.RetrainTrigger.TriggerRetrain` | src/models/retrain_trigger.py:196-253 | result and new record are those of `Retrain` on the old record |
| `Engine.RetrainTrigger.CheckAndRetrain` | src/models/retrain_trigger.py:255-265 | result and new record are those of `CheckAndRetrainOutcome` on the old record |
| `Engine.RetrainTrigger.GetRetrainStatus` | src/models/retrain_trigger.py:267-283 | returns `Status` of the current config and record, changing nothing |
| `Engine.RetrainTrigger.UpdateConfig` | src/models/retrain_trigger.py:285-288 | config becomes the merge of the old config and the update; returns "Configuration updated" and the new config |
| `Engine.ParseCli` | src/models/retrain_trigger.py:302-322 | dispatch on `argv[1]`; `trigger` with no further words uses "Manual CLI trigger", otherwise the further words joined by single spaces in order |
| `Engine.CliReasonWords` | src/models/retrain_trigger.py:311 | every word after `trigger` occurs in the assembled reason |
| `Metrics.MetricsCollector.constructor` | src/api/app.py:196-201 | all counters zero, no samples, start time recorded |
| `Metrics.MetricsCollector.RecordRequest` | src/api/app.py:203-209 | total +1, one response time appended, exactly one of successful/failed +1; keeps `total == successful + failed == len(response_times)` |
| `Metrics.MetricsCollector.GetMetrics` | src/api/app.py:211-223 | reports the counters; success rate 0 with no requests, otherwise rate × total = successful, always in [0, 1]; average is `Mean` of the samples; uptime; version or "unknown" |
| `Metrics.Mean` | src/api/app.py:213 | 0 for no samples, otherwise mean × count = sum |
| `Metrics.SuccessRate` | src/api/app.py:219 | 0 with no requests, otherwise rate × total = successful |
| `Metrics.SuccessRateBounds` | src/api/app.py:219 | with successful ≤ total, the rate is in [0, 1], and it is 1 iff every request succeeded |
| `Metrics.SumBounds` | src/api/app.py:213 | samples within [lo, hi] sum to within [n·lo, n·hi] |
| `Metrics.MeanBounds` | src/api/app.py:213 | the average of samples within [lo, hi] is within [lo, hi] |
| `Api.RequestReason` | src/api/app.py:586 | a missing or empty reason becomes "Manual API trigger"; any other reason is kept |
| `Api.Forced` | src/api/app.py:591 | a request is forced iff `force` is present and true; absent or false consults the engine |
| `Api.TooSoonGate` | src/api/app.py:591-597 | rejects iff the verdict is false and its text contains "Too soon since last retrain"; the rejection is 429 and quotes the reason |
| `Api.GateRejectsOnlyCooldown` | src/api/app.py:591-597 | on the engine's verdicts the gate rejects exactly the cooldown verdict; a disabled or no-trigger verdict still proceeds |
| `Api.Supplied` | src/api/app.py:637 | a `None` payload field becomes an absent key; a present one is supplied with its value |
| `Api.FilterConfig` | src/api/app.py:637-643 | `None` fields are dropped; `max_retrain_frequency_hours` becomes `max_retrain_frequency` (hours × 3600 s); the check interval is never supplied |
| `Api.PayloadTouchesOnlySuppliedFields` | src/api/app.py:637-645 | posting a payload changes exactly the fields it supplies; all others keep their values |
| `Api.RetrainStatusEndpoint` | src/api/app.py:561-575 | 503 when unavailable; otherwise the engine's status |
| `Api.TriggerEndpoint` | src/api/app.py:578-626 | 503 when unavailable (record untouched); 429 when not forced and cooling down (record untouched); otherwise the engine's retrain with the request reason, forced or not |
| `Api.ConfigEndpoint` | src/api/app.py:629-656 | 503 when unavailable (config untouched); otherwise the config becomes its merge with the filtered payload |
| `Train.FirstPresent` | src/train.py:27-29 | index of the first candidate that is a column; no earlier candidate is a column; `None` iff no candidate is |
| `Train.DetectTargetColumn` | src/train.py:22-30 | the result is a candidate and a column, with no earlier candidate a column; `KeyError` naming the candidates iff no candidate is a column |
| `Train.PrefersMedHouseVal` | src/config.py:14 | with the repository's order, "MedHouseVal" wins over "target"; "target" is used only without "MedHouseVal" |

## Left out

- The MD5 digest and its chunked file reads. The digest is a function parameter of `CalculateDataHash`.
- `get_current_model_performance` (MLflow registry lookup, model load, data split, R²). It is an input `Option<real>`. The source catches every exception there and returns `None`, which the model covers by allowing `None`.
- The training subprocess. Its outcome is the input `JobOutcome`. Its stdout is captured but never read, so it is not an input.
- `datetime.now()`, ISO formatting and parsing. Each clock reading is an integer parameter. Fractional-hour `timedelta` values are not rounded to microseconds.
- Python's rendering of numbers and timestamps in reason texts (`:.3f`, `str(float)`, `str(datetime)`). It is the `Formats` parameter.
- JSON file I/O and its failures: an unreadable or unwritable state file would raise. Inside `trigger_retrain` such an error would come back as a failed result.
- `Engine.Retrain`: the display `message` field of the result dict (emoji and formatted duration) is not modelled.
- `Engine.RetrainTrigger.UpdateConfig`: only the five known configuration keys are modelled. Unknown keys that `dict.update` would add are not. The live dict that the source returns, which aliases the engine's config, is modelled as a copy.
- `Metrics.MetricsCollector.GetMetrics`: the average and the uptime are exact. `round(…, 2)` on floats is not modelled.
- Floating point in general: scores, thresholds and times are exact reals, with no NaN or rounding.
- `data_change_check_interval` is kept in the configuration. The code never reads it.
- The CLI's printing and JSON output. Only the command dispatch and the reason assembly of `main` are modelled.
- The engine's own console printing in `get_current_model_performance`, `trigger_retrain` and `check_and_retrain`. It is output only and changes no state.
- `Engine.Status`: the source's status dict holds the engine's live `config` dict, so a caller mutating it would change the engine. The model returns a copy of the configuration value.
- The HTTP layer's other parts: FastAPI routing, the 500 wrapping of unexpected exceptions, `retrain_id` and `timestamp` fields, the `old_performance` lookup, SQLite logging, Prometheus metrics, model loading, and the prediction endpoint.
- The training body of src/train.py, src/models/train.py and the data ingestion scripts: MLflow/sklearn/pandas orchestration.

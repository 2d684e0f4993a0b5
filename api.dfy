/**
 * The policy the HTTP layer (src/api/app.py) wraps around the engine: the availability guard
 * of the three retraining endpoints, the "too soon" gate of a manual trigger with its `force`
 * override, and the filtering of a configuration payload before it is merged.
 */
module Api {
  import opened Wrappers
  import opened Text
  import opened EngineState
  import opened Policy
  import opened Engine

  /** An `HTTPException` raised by an endpoint. */
  datatype HttpError = HttpError(statusCode: int, detail: string)

  /** The 503 every retraining endpoint raises when the engine could not be imported. */
  const NotAvailable := HttpError(503, "Retraining system not available")

  /** The body of `POST /retrain/trigger`; a JSON `null` is `None`. */
  datatype RetrainRequest = RetrainRequest(reason: Option<string>, force: Option<bool>)

  /** The body of `POST /retrain/config`; a field left out or sent as `null` is `None`. */
  datatype RetrainConfigPayload = RetrainConfigPayload(
    minPerformanceThreshold: Option<real>,
    performanceDegradationThreshold: Option<real>,
    autoRetrainEnabled: Option<bool>,
    maxRetrainFrequencyHours: Option<real>)

  /** `request.reason or "Manual API trigger"`: a missing or empty reason falls back to the default. */
  function RequestReason(req: RetrainRequest): (reason: string)
    ensures reason != ""
    ensures req.reason.Some? && req.reason.value != "" ==> reason == req.reason.value
    ensures req.reason.None? || req.reason.value == "" ==> reason == "Manual API trigger"
  {
    if req.reason.Some? && req.reason.value != "" then req.reason.value else "Manual API trigger"
  }

  /** `request.force` is truthy: only an explicit `true` forces; `false` and `null` do not. */
  predicate Forced(req: RetrainRequest): (b: bool)
    ensures b <==> req.force.Some? && req.force.value
  {
    req.force == Some(true)
  }

  /** The gate of a non-forced trigger on the engine's `(should_retrain, reason)` pair. */
  function TooSoonGate(should: bool, checkReason: string): (e: Option<HttpError>)
    ensures e.Some? <==> !should && Contains(checkReason, TooSoonPhrase)
    ensures e.Some? ==> e.value.statusCode == 429
    ensures e.Some? ==> Contains(e.value.detail, checkReason)
  {
    if !should && Contains(checkReason, TooSoonPhrase) then
      ContainsPrefix("Retraining not allowed: " + checkReason, ". Use force=true to override.");
      ContainsSuffix("Retraining not allowed: ", checkReason);
      var detail := "Retraining not allowed: " + checkReason + ". Use force=true to override.";
      assert Contains(detail, checkReason) by {
        var i :| 0 <= i <= |"Retraining not allowed: " + checkReason| - |checkReason|
               && OccursAt("Retraining not allowed: " + checkReason, checkReason, i);
        assert detail[i..i + |checkReason|] == ("Retraining not allowed: " + checkReason)[i..i + |checkReason|];
        assert OccursAt(detail, checkReason, i);
      }
      Some(HttpError(429, detail))
    else
      None
  }

  /**
   * On the engine's own verdicts, the gate rejects exactly the cooldown: a negative verdict for any
   * other reason (switch off, no triggers) lets the retrain proceed.
   */
  lemma GateRejectsOnlyCooldown(c: Config, s: RetrainState, now: Time, h: Hash, p: Option<real>, f: Formats)
    ensures var v := Decide(c, s, now, h, p);
      TooSoonGate(v.ShouldRetrain(), ReasonText(v, f)).Some? <==> v.TooSoon?
  {
    TooSoonTextIdentifiesCooldown(Decide(c, s, now, h, p), f);
  }

  /** The dict comprehension dropping `None` values: a `None` field becomes an absent key. */
  function Supplied<T>(field: Option<T>): (p: Patch<T>)
    ensures p.Put? <==> field.Some?
    ensures p.Put? ==> p.value == field.value
  {
    match field
    case Some(v) => Put(v)
    case None => Keep
  }

  /**
   * The config dict built by `update_retrain_config`: `None` fields dropped, and
   * `max_retrain_frequency_hours` replaced by `max_retrain_frequency` holding that many hours
   * (in seconds). `data_change_check_interval` is not in the payload, so it is never supplied.
   */
  function FilterConfig(payload: RetrainConfigPayload): (u: ConfigUpdate)
    ensures u.minPerformanceThreshold == Supplied(payload.minPerformanceThreshold)
    ensures u.performanceDegradationThreshold == Supplied(payload.performanceDegradationThreshold)
    ensures u.autoRetrainEnabled == Supplied(payload.autoRetrainEnabled)
    ensures u.dataChangeCheckInterval.Keep?
    ensures u.maxRetrainFrequency.Put? <==> payload.maxRetrainFrequencyHours.Some?
    ensures u.maxRetrainFrequency.Put? ==> u.maxRetrainFrequency.value == payload.maxRetrainFrequencyHours.value * 3600.0
  {
    ConfigUpdate(
      Supplied(payload.minPerformanceThreshold),
      Supplied(payload.performanceDegradationThreshold),
      Keep,
      Supplied(payload.autoRetrainEnabled),
      match payload.maxRetrainFrequencyHours
      case Some(hours) => Put(hours * 3600.0)
      case None => Keep)
  }

  /** Posting a payload changes exactly the fields it supplies; every field it leaves out keeps its value. */
  lemma PayloadTouchesOnlySuppliedFields(c: Config, payload: RetrainConfigPayload)
    ensures var r := MergeConfig(c, FilterConfig(payload));
      && r.minPerformanceThreshold == payload.minPerformanceThreshold.GetOr(c.minPerformanceThreshold)
      && r.performanceDegradationThreshold == payload.performanceDegradationThreshold.GetOr(c.performanceDegradationThreshold)
      && r.autoRetrainEnabled == payload.autoRetrainEnabled.GetOr(c.autoRetrainEnabled)
      && r.dataChangeCheckInterval == c.dataChangeCheckInterval
      && (payload.maxRetrainFrequencyHours.None? ==> r.maxRetrainFrequency == c.maxRetrainFrequency)
      && (payload.maxRetrainFrequencyHours.Some? ==> r.maxRetrainFrequency == payload.maxRetrainFrequencyHours.value * 3600.0)
  {
  }

  /** `GET /retrain/status`. */
  method RetrainStatusEndpoint(engine: RetrainTrigger, available: bool, now: Time, currentHash: Hash,
                               performance: Option<real>, f: Formats, currentPerformance: Option<real>, statusHash: Hash)
    returns (resp: Result<RetrainStatus, HttpError>)
    requires engine.Valid()
    ensures !available ==> resp == Failure(NotAvailable)
    ensures available ==> resp == Success(Status(engine.config, engine.GetState(), now, currentHash, performance, f,
                                                 currentPerformance, statusHash))
  {
    if !available {
      return Failure(NotAvailable);
    }
    var status := engine.GetRetrainStatus(now, currentHash, performance, f, currentPerformance, statusHash);
    resp := Success(status);
  }

  /**
   * `POST /retrain/trigger`. The engine's verdict (`now`, `currentHash`, `performance`) is consulted
   * only for a non-forced request; the remaining inputs are those of the retrain itself.
   */
  method TriggerEndpoint(engine: RetrainTrigger, available: bool, req: RetrainRequest,
                         now: Time, currentHash: Hash, performance: Option<real>, f: Formats,
                         start: Time, finish: Time, job: JobOutcome, newPerformance: Option<real>, retrainHash: Hash)
    returns (resp: Result<RetrainResult, HttpError>)
    requires engine.Valid()
    modifies engine`stateFile
    ensures engine.Valid()
    ensures !available ==> resp == Failure(NotAvailable) && engine.stateFile == old(engine.stateFile)
    ensures var v := Decide(engine.config, old(engine.GetState()), now, currentHash, performance);
      available && !Forced(req) && v.TooSoon? ==>
        && resp == Failure(HttpError(429, "Retraining not allowed: " + ReasonText(v, f) + ". Use force=true to override."))
        && engine.stateFile == old(engine.stateFile)
    ensures var v := Decide(engine.config, old(engine.GetState()), now, currentHash, performance);
      available && (Forced(req) || !v.TooSoon?) ==>
        && resp.Success?
        && (resp.value, engine.GetState()) == Retrain(old(engine.GetState()), RequestReason(req), start, finish, job,
                                                      newPerformance, retrainHash)
  {
    if !available {
      return Failure(NotAvailable);
    }
    var reason := RequestReason(req);
    if !Forced(req) {
      var should, checkReason := engine.ShouldRetrain(now, currentHash, performance, f);
      GateRejectsOnlyCooldown(engine.config, engine.GetState(), now, currentHash, performance, f);
      var gate := TooSoonGate(should, checkReason);
      if gate.Some? {
        return Failure(gate.value);
      }
    }
    var result := engine.TriggerRetrain(reason, start, finish, job, newPerformance, retrainHash);
    resp := Success(result);
  }

  /** `POST /retrain/config`. */
  method ConfigEndpoint(engine: RetrainTrigger, available: bool, payload: RetrainConfigPayload)
    returns (resp: Result<Config, HttpError>)
    modifies engine`config
    ensures !available ==> resp == Failure(NotAvailable) && engine.config == old(engine.config)
    ensures available ==> engine.config == MergeConfig(old(engine.config), FilterConfig(payload))
    ensures available ==> resp == Success(engine.config)
  {
    if !available {
      return Failure(NotAvailable);
    }
    var _, updated := engine.UpdateConfig(FilterConfig(payload));
    resp := Success(updated);
  }
}

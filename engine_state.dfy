/**
 * The persisted retraining state record, the engine's policy configuration, the dict merges
 * that change them, and the data-change check against the stored fingerprint
 * (src/models/retrain_trigger.py, class RetrainTrigger).
 */
module EngineState {
  import opened Wrappers

  /** A reading of the engine's clock, in seconds. */
  type Time = int

  /** A data fingerprint: the hex digest of the processed data file, or "" when there is no file. */
  type Hash = string

  newtype Byte = b: int | 0 <= b < 256

  /** The JSON state record; a JSON `null` is `None`. */
  datatype RetrainState = RetrainState(
    lastRetrainTime: Option<Time>,
    lastDataHash: Option<Hash>,
    lastPerformance: Option<real>,
    retrainCount: int,
    lastCheckTime: Option<Time>)

  /** The record `ensure_state_file` writes when there is no state file yet. */
  const InitialState := RetrainState(None, None, None, 0, None)

  /** One key of an update dict: left out of the dict (`Keep`) or supplied with a value (`Put`). */
  datatype Patch<T> = Keep | Put(value: T) {

    /** The key's value after `dict.update`, given its value before. */
    function Apply(prev: T): T
    {
      if Put? then value else prev
    }
  }

  /** An update dict for the state record, one entry per key of the record. */
  datatype StateUpdate = StateUpdate(
    lastRetrainTime: Patch<Option<Time>>,
    lastDataHash: Patch<Option<Hash>>,
    lastPerformance: Patch<Option<real>>,
    retrainCount: Patch<int>,
    lastCheckTime: Patch<Option<Time>>)

  /** `state.update(updates)`: every supplied key takes its new value, every other key keeps its old one. */
  function MergeState(s: RetrainState, u: StateUpdate): (r: RetrainState)
    ensures u.lastRetrainTime.Put? ==> r.lastRetrainTime == u.lastRetrainTime.value
    ensures u.lastRetrainTime.Keep? ==> r.lastRetrainTime == s.lastRetrainTime
    ensures u.lastDataHash.Put? ==> r.lastDataHash == u.lastDataHash.value
    ensures u.lastDataHash.Keep? ==> r.lastDataHash == s.lastDataHash
    ensures u.lastPerformance.Put? ==> r.lastPerformance == u.lastPerformance.value
    ensures u.lastPerformance.Keep? ==> r.lastPerformance == s.lastPerformance
    ensures u.retrainCount.Put? ==> r.retrainCount == u.retrainCount.value
    ensures u.retrainCount.Keep? ==> r.retrainCount == s.retrainCount
    ensures u.lastCheckTime.Put? ==> r.lastCheckTime == u.lastCheckTime.value
    ensures u.lastCheckTime.Keep? ==> r.lastCheckTime == s.lastCheckTime
  {
    RetrainState(
      u.lastRetrainTime.Apply(s.lastRetrainTime),
      u.lastDataHash.Apply(s.lastDataHash),
      u.lastPerformance.Apply(s.lastPerformance),
      u.retrainCount.Apply(s.retrainCount),
      u.lastCheckTime.Apply(s.lastCheckTime))
  }

  /** Merging the same update twice is the same as merging it once. */
  lemma MergeStateIdempotent(s: RetrainState, u: StateUpdate)
    ensures MergeState(MergeState(s, u), u) == MergeState(s, u)
  {
  }

  /** The policy configuration dict; `maxRetrainFrequency` is the `timedelta` in seconds. */
  datatype Config = Config(
    minPerformanceThreshold: real,
    performanceDegradationThreshold: real,
    dataChangeCheckInterval: int,
    autoRetrainEnabled: bool,
    maxRetrainFrequency: real)

  /** The defaults set in `RetrainTrigger.__init__`: R² 0.5, a drop of 0.1, one hour, enabled, six hours. */
  const DefaultConfig := Config(0.5, 0.1, 3600, true, 6.0 * 3600.0)

  /** An update dict for the configuration, one entry per configuration key. */
  datatype ConfigUpdate = ConfigUpdate(
    minPerformanceThreshold: Patch<real>,
    performanceDegradationThreshold: Patch<real>,
    dataChangeCheckInterval: Patch<int>,
    autoRetrainEnabled: Patch<bool>,
    maxRetrainFrequency: Patch<real>)

  /** `self.config.update(new_config)`: supplied keys take their new value, the others keep theirs. */
  function MergeConfig(c: Config, u: ConfigUpdate): (r: Config)
    ensures u.minPerformanceThreshold.Put? ==> r.minPerformanceThreshold == u.minPerformanceThreshold.value
    ensures u.minPerformanceThreshold.Keep? ==> r.minPerformanceThreshold == c.minPerformanceThreshold
    ensures u.performanceDegradationThreshold.Put? ==> r.performanceDegradationThreshold == u.performanceDegradationThreshold.value
    ensures u.performanceDegradationThreshold.Keep? ==> r.performanceDegradationThreshold == c.performanceDegradationThreshold
    ensures u.dataChangeCheckInterval.Put? ==> r.dataChangeCheckInterval == u.dataChangeCheckInterval.value
    ensures u.dataChangeCheckInterval.Keep? ==> r.dataChangeCheckInterval == c.dataChangeCheckInterval
    ensures u.autoRetrainEnabled.Put? ==> r.autoRetrainEnabled == u.autoRetrainEnabled.value
    ensures u.autoRetrainEnabled.Keep? ==> r.autoRetrainEnabled == c.autoRetrainEnabled
    ensures u.maxRetrainFrequency.Put? ==> r.maxRetrainFrequency == u.maxRetrainFrequency.value
    ensures u.maxRetrainFrequency.Keep? ==> r.maxRetrainFrequency == c.maxRetrainFrequency
  {
    Config(
      u.minPerformanceThreshold.Apply(c.minPerformanceThreshold),
      u.performanceDegradationThreshold.Apply(c.performanceDegradationThreshold),
      u.dataChangeCheckInterval.Apply(c.dataChangeCheckInterval),
      u.autoRetrainEnabled.Apply(c.autoRetrainEnabled),
      u.maxRetrainFrequency.Apply(c.maxRetrainFrequency))
  }

  /**
   * `calculate_data_hash`: "" when the file does not exist, otherwise the digest of its bytes.
   * The digest (MD5 in hex) is a parameter; `file` is `None` when the path does not exist.
   */
  function CalculateDataHash(file: Option<seq<Byte>>, digest: seq<Byte> -> Hash): (h: Hash)
    ensures file.None? ==> h == ""
    ensures file.Some? ==> h == digest(file.value)
  {
    match file
    case None => ""
    case Some(bytes) => digest(bytes)
  }

  /**
   * With a digest that always yields 32 hex characters, the "" sentinel is produced exactly
   * when the file is missing, so it never collides with the fingerprint of existing data.
   */
  lemma SentinelOnlyForMissingFile(file: Option<seq<Byte>>, digest: seq<Byte> -> Hash)
    requires forall b :: |digest(b)| == 32
    ensures CalculateDataHash(file, digest) == "" <==> file.None?
    ensures file.Some? ==> CalculateDataHash(file, digest) == digest(file.value)
  {
  }

  /**
   * `has_data_changed` with the current fingerprint as an input: changed when no fingerprint is
   * stored or the stored one differs; the current fingerprint is returned alongside.
   */
  function HasDataChanged(s: RetrainState, currentHash: Hash): (r: (bool, Hash))
    ensures r.1 == currentHash
    ensures r.0 <==> s.lastDataHash != Some(currentHash)
  {
    var lastHash := s.lastDataHash;
    if lastHash.None? || currentHash != lastHash.value then (true, currentHash)
    else (false, currentHash)
  }

  /** A state with no stored fingerprint reports a change for every fingerprint, the "" sentinel included. */
  lemma UnsetHashAlwaysChanged(s: RetrainState, currentHash: Hash)
    requires s.lastDataHash.None?
    ensures HasDataChanged(s, currentHash).0
  {
  }

  /** Once a fingerprint is stored, the same fingerprint reads as unchanged and any other as changed. */
  lemma StoredHashComparison(s: RetrainState, stored: Hash, currentHash: Hash)
    ensures var s' := MergeState(s, StateUpdate(Keep, Put(Some(stored)), Keep, Keep, Keep));
      HasDataChanged(s', currentHash).0 <==> currentHash != stored
  {
  }
}
